/** The handler object: its methods change the tables in place and call the plugins as they go. */
module RunHandler {
  import opened Seqs
  import opened TopicKey
  import opened RunSpec
  import opened RunInvariant
  import opened RunSystem
  import opened RunSteps

  predicate HasDigit(s: string) {
    exists i :: 0 <= i < |s| && '0' <= s[i] <= '9'
  }

  class InstanceRunHandler {
    const plugins: Plugins
    var instances: map<string, Inst>
    var topicState: map<Topic, bool>
    var subscribers: map<string, set<string>>
    var recvQueue: seq<Msg>
    var recvData: seq<string>
    var time: nat
    var calls: nat

    ghost function S(): Handler
      reads this
    {
      Handler(instances, topicState, subscribers, time)
    }

    constructor (plugins: Plugins, loaded: map<string, Inst>)
      ensures this.plugins == plugins && System(S(), recvQueue, false) == Start(loaded)
    {
      this.plugins, instances := plugins, loaded;
      topicState, subscribers, recvQueue, recvData := map[], map[], [], [];
      time, calls := 0, 0;
    }

    /** One call into a plugin. */
    method Call() returns (ok: bool)
      modifies this`recvQueue, this`calls
      ensures recvQueue == old(recvQueue) + plugins.posts(old(calls)) && Grown(plugins, old(recvQueue), recvQueue)
      ensures ok == plugins.ok(old(calls))
    {
      GrownOnce(plugins, recvQueue, calls);
      ok := plugins.ok(calls);
      recvQueue := recvQueue + plugins.posts(calls);
      calls := calls + 1;
    }

    method EnableInstance(name: string) returns (ok: bool)
      modifies this`instances, this`recvQueue, this`calls
      ensures ok ==> name in old(instances)
      ensures S() == if ok then Enable(old(S()), name) else old(S())
      ensures Grown(plugins, old(recvQueue), recvQueue)
    {
      if name !in instances {
        return false;
      }
      ok := Call();
      if ok {
        var i := instances[name];
        var start := if i.info.scenario then time + i.info.period
                     else if i.info.tune then time + 2 * i.info.period
                     else time;
        instances := instances[name := i.(enabled := true, enableCnt := i.enableCnt + 1, pending := i.pending + multiset{start})];
      }
    }

    /** Instance::Disable: the plugin closes the topic of every kept key, and stops. */
    method DisablePlugin(name: string)
      requires name in instances
      modifies this`instances, this`recvQueue, this`calls
      ensures instances == old(instances)[name := ClosedI(old(instances)[name], old(instances)[name].open)]
      ensures Grown(plugins, old(recvQueue), recvQueue)
    {
      ghost var q0, i0 := recvQueue, instances[name];
      var types := instances[name].open;
      assert ClosedI(i0, {}) == i0 && i0.open - types == {};
      while types != {}
        invariant types <= i0.open
        invariant instances.Keys == old(instances).Keys && instances == old(instances)[name := ClosedI(i0, i0.open - types)]
        invariant Grown(plugins, q0, recvQueue)
      {
        var t :| t in types;
        CloseKey(i0, i0.open - types, t);
        assert i0.open - (types - {t}) == i0.open - types + {t};
        match GetTopicFromType(t) {
          case None =>
          case Some(topic) =>
            ghost var q := recvQueue;
            var _ := Call();
            GrownTwice(plugins, q0, q, recvQueue);
            var i := instances[name];
            instances := instances[name := i.(atPlugin := i.atPlugin - {topic})];
        }
        types := types - {t};
      }
      assert i0.open - types == i0.open;
      ghost var q := recvQueue;
      var _ := Call();
      GrownTwice(plugins, q0, q, recvQueue);
    }

    method DisableInstance(name: string)
      modifies this`instances, this`recvQueue, this`calls
      ensures S() == Disable(old(S()), name)
      ensures Grown(plugins, old(recvQueue), recvQueue)
    {
      if name !in instances {
        return;
      }
      instances := instances[name := instances[name].(enabled := false)];
      DisablePlugin(name);
    }

    /** Instance::OpenTopic. */
    method OpenTopic(topic: Topic) returns (ok: bool)
      requires topic.instanceName in instances
      modifies this`instances, this`recvQueue, this`calls
      ensures S() == if ok then Opened(old(S()), topic) else old(S())
      ensures Grown(plugins, old(recvQueue), recvQueue)
    {
      ok := Call();
      if ok {
        var i := instances[topic.instanceName];
        instances := instances[topic.instanceName := i.(open := i.open + {GetType(topic)}, atPlugin := i.atPlugin + {topic})];
      }
    }

    /** Instance::CloseTopic. */
    method CloseTopic(topic: Topic)
      requires topic.instanceName in instances
      modifies this`instances, this`recvQueue, this`calls
      ensures instances == old(instances)[topic.instanceName := CloseI(old(instances)[topic.instanceName], topic)]
      ensures Grown(plugins, old(recvQueue), recvQueue)
    {
      var _ := Call();
      var i := instances[topic.instanceName];
      instances := instances[topic.instanceName := i.(open := i.open - {GetType(topic)}, atPlugin := i.atPlugin - {topic})];
    }

    method Subscribe(key: string, who: string) returns (ok: bool, ghost a: Answers)
      requires GetTopicFromType(key).Some?
      modifies this
      ensures (S(), ok) == SubscribeTo(old(S()), key, who, a)
      ensures Grown(plugins, old(recvQueue), recvQueue)
    {
      a := Answers(false, false);
      var topic := GetTopicFromType(key).value;
      var name := topic.instanceName;
      if name !in instances {
        return false, a;
      }
      ghost var s0, q0 := S(), recvQueue;
      if !instances[name].enabled {
        ok := EnableInstance(name);
        a := Answers(ok, false);
        if !ok {
          return false, a;
        }
      } else {
        GrownOnce(plugins, q0, 0);
      }
      ghost var e, q := S(), recvQueue;
      assert e == Awake(s0, name);
      if topic !in topicState || !topicState[topic] {
        ok := OpenTopic(topic);
        GrownTwice(plugins, q0, q, recvQueue);
        a := a.(openOk := ok);
        if !ok {
          q := recvQueue;
          topicState := topicState[topic := false];
          DisableInstance(name);
          GrownTwice(plugins, q0, q, recvQueue);
          return false, a;
        }
        topicState := topicState[topic := true];
      }
      subscribers := subscribers[key := (if key in subscribers then subscribers[key] else {}) + {who}];
      ok := true;
    }

    /** Closes one topic unless somebody subscribes to it. */
    method CloseIfStale(topic: Topic) returns (kept: bool)
      requires topic in topicState && topic.instanceName in instances
      modifies this`instances, this`topicState, this`recvQueue, this`calls
      ensures var s, name := old(S()), topic.instanceName;
              && kept == (Flag(s, topic) && GetType(topic) in s.subs)
              && (!Stale(s, topic) ==> S() == s && recvQueue == old(recvQueue))
              && (Stale(s, topic) ==> S() == s.(insts := s.insts[name := CloseI(s.insts[name], topic)], flags := s.flags[topic := false]))
      ensures Grown(plugins, old(recvQueue), recvQueue)
    {
      GrownOnce(plugins, recvQueue, 0);
      kept := false;
      if topicState[topic] {
        if GetType(topic) !in subscribers {
          CloseTopic(topic);
          topicState := topicState[topic := false];
        } else {
          kept := true;
        }
      }
    }

    /** The part of UpdateInstance for one instance: stale topics are closed, and it is disabled when none is left. */
    method RefreshInstance(name: string, ghost s: Handler, ghost done: set<string>)
      requires Refreshing(s, S(), done) && name !in done && name in instances && name in KnownNames(s)
      modifies this`instances, this`topicState, this`recvQueue, this`calls
      ensures Refreshing(s, S(), done + {name})
      ensures Grown(plugins, old(recvQueue), recvQueue)
      ensures StaleOf(s, name) == {} && !Idle(s, name) ==> recvQueue == old(recvQueue)
    {
      ghost var q0 := recvQueue;
      var topics := set t | t in topicState && t.instanceName == name;
      ghost var all := topics;
      assert all == TopicsOf(s, name);
      var cntTopic := 0;
      WalkStarts(s, S(), done, name);
      GrownOnce(plugins, q0, 0);
      assert all - topics == {};
      while topics != {}
        invariant topics <= all
        invariant Walking(s, S(), done, name, all - topics)
        invariant cntTopic >= 0 && (cntTopic == 0 <==> NoneLeft(s, all - topics))
        invariant Grown(plugins, q0, recvQueue)
        invariant StaleOf(s, name) == {} ==> recvQueue == q0
      {
        var topic :| topic in topics;
        assert all - (topics - {topic}) == all - topics + {topic};
        ghost var r, q, seen := S(), recvQueue, all - topics;
        WalkPast(s, r, done, name, seen, topic);
        if Stale(s, topic) {
          assert topic in StaleOf(s, name);
          WalkClose(s, r, done, name, seen, topic);
        }
        var kept := CloseIfStale(topic);
        GrownTwice(plugins, q0, q, recvQueue);
        if kept {
          cntTopic := cntTopic + 1;
        }
        topics := topics - {topic};
        hide Walking;
      }
      assert all - topics == all;
      WalkEnds(s, S(), done, name);
      if cntTopic == 0 && instances[name].enabled {
        ghost var q := recvQueue;
        DisableInstance(name);
        GrownTwice(plugins, q0, q, recvQueue);
      }
    }

    method UpdateInstance()
      requires FlagsOfInstances(S())
      modifies this`instances, this`topicState, this`recvQueue, this`calls
      ensures S() == Refresh(old(S()))
      ensures Grown(plugins, old(recvQueue), recvQueue)
      ensures !CallsPlugins(old(S())) ==> recvQueue == old(recvQueue)
    {
      ghost var s, q0 := S(), recvQueue;
      var names := set t | t in topicState :: t.instanceName;
      RefreshingStarts(s);
      GrownOnce(plugins, q0, 0);
      while names != {}
        invariant names <= KnownNames(s)
        invariant Refreshing(s, S(), KnownNames(s) - names)
        invariant Grown(plugins, q0, recvQueue)
        invariant !CallsPlugins(s) ==> recvQueue == q0
      {
        var name :| name in names;
        ghost var q := recvQueue;
        assert KnownNames(s) - (names - {name}) == KnownNames(s) - names + {name};
        RefreshInstance(name, s, KnownNames(s) - names);
        GrownTwice(plugins, q0, q, recvQueue);
        names := names - {name};
      }
      assert KnownNames(s) - names == KnownNames(s);
      RefreshingEnds(s, S());
    }

    method Unsubscribe(key: string, who: string)
      requires FlagsOfInstances(S())
      modifies this
      ensures S() == UnsubscribeFrom(old(S()), key, who)
      ensures Grown(plugins, old(recvQueue), recvQueue)
      ensures !CallsPlugins(old(S()).(subs := Leave(old(subscribers), key, who))) ==> recvQueue == old(recvQueue)
    {
      var left := (if key in subscribers then subscribers[key] else {}) - {who};
      subscribers := subscribers[key := left];
      if left == {} {
        assert subscribers - {key} == old(subscribers) - {key};
        subscribers := subscribers - {key};
      }
      UpdateInstance();
    }

    /** One topic that the client may be subscribed to. */
    method LeaveTopic(key: string, sdkFd: string, ghost s: Handler, ghost done: set<string>)
      requires FlagsOfInstances(s) && key in s.subs && key !in done
      requires LeavingPart(s, S(), sdkFd, done)
      modifies this
      ensures LeavingPart(s, S(), sdkFd, done + {key})
      ensures Grown(plugins, old(recvQueue), recvQueue)
    {
      ghost var r := S();
      LeftPartStep(s.subs, sdkFd, done, key);
      LeavingStep(s, r, sdkFd, done, key);
      GrownOnce(plugins, recvQueue, 0);
      hide LeftPart;
      hide Refresh;
      if sdkFd in subscribers[key] {
        var left := subscribers[key] - {sdkFd};
        if left == {} {
          assert subscribers[key] == {sdkFd};
          subscribers := subscribers - {key};
        } else {
          subscribers := subscribers[key := left];
        }
        UpdateInstance();
      }
    }

    method UnsubscribeSdk(sdkFd: string)
      requires FlagsOfInstances(S())
      modifies this
      ensures S() == UnsubscribeAll(old(S()), sdkFd)
      ensures Grown(plugins, old(recvQueue), recvQueue)
    {
      ghost var s, q0 := S(), recvQueue;
      var keys := subscribers.Keys;
      LeftPartEnds(s.subs, sdkFd);
      GrownOnce(plugins, q0, 0);
      assert s.(subs := s.subs) == s;
      while keys != {}
        invariant keys <= s.subs.Keys
        invariant LeavingPart(s, S(), sdkFd, s.subs.Keys - keys)
        invariant Grown(plugins, q0, recvQueue)
      {
        var key :| key in keys;
        ghost var q := recvQueue;
        assert s.subs.Keys - (keys - {key}) == s.subs.Keys - keys + {key};
        LeaveTopic(key, sdkFd, s, s.subs.Keys - keys);
        GrownTwice(plugins, q0, q, recvQueue);
        keys := keys - {key};
      }
      assert s.subs.Keys - keys == s.subs.Keys;
      assert ReadsSome(s.subs, sdkFd, s.subs.Keys) <==> Reads(s.subs, sdkFd);
    }

    method Publish(topic: Topic) returns (ok: bool, ghost a: Answers)
      modifies this
      ensures (S(), ok) == PublishTo(old(S()), topic, a)
      ensures Grown(plugins, old(recvQueue), recvQueue)
    {
      a := Answers(false, false);
      ghost var s0, q0 := S(), recvQueue;
      GrownOnce(plugins, q0, 0);
      var name := topic.instanceName;
      if name !in instances {
        return false, a;
      }
      if topic.topicName != "" && topic.topicName !in instances[name].supports {
        return false, a;
      }
      var _ := Call();
      ghost var q := recvQueue;
      if !instances[name].enabled {
        ok := EnableInstance(name);
        GrownTwice(plugins, q0, q, recvQueue);
        a := Answers(ok, false);
        if !ok {
          return false, a;
        }
      }
      assert S() == Awake(s0, name);
      if topic.topicName != "" {
        q := recvQueue;
        ok := OpenTopic(topic);
        GrownTwice(plugins, q0, q, recvQueue);
        a := a.(openOk := ok);
        return ok, a;
      }
      ok := true;
    }

    /** Every client (a subscriber with a digit in its name) is sent the data once; instances are called. */
    method PublishData(key: string)
      modifies this
      ensures S() == Lookup(old(S()), key)
      ensures Grown(plugins, old(recvQueue), recvQueue)
      ensures old(recvData) <= recvData
      ensures var sent := recvData[|old(recvData)|..];
              && NoDup(sent)
              && forall w :: w in sent <==> key in old(subscribers) && w in old(subscribers)[key] && exists i :: 0 <= i < |w| && '0' <= w[i] <= '9'
    {
      if key !in subscribers {
        subscribers := subscribers[key := {}];
      }
      ghost var s, q0 := S(), recvQueue;
      var todo := subscribers[key];
      var sent := [];
      GrownOnce(plugins, q0, 0);
      while todo != {}
        invariant todo <= s.subs[key] && S() == s
        invariant NoDup(sent) && forall w :: w in sent <==> w in s.subs[key] - todo && HasDigit(w)
        invariant recvData == old(recvData) + sent
        invariant Grown(plugins, q0, recvQueue)
      {
        var subscriber :| subscriber in todo;
        todo := todo - {subscriber};
        if HasDigit(subscriber) {
          recvData := recvData + [subscriber];
          sent := sent + [subscriber];
        } else {
          ghost var q := recvQueue;
          var _ := Call();
          GrownTwice(plugins, q0, q, recvQueue);
        }
      }
      assert recvData[|old(recvData)|..] == sent;
    }

    /** One turn of HandleMessage. */
    method HandleOne(m: Msg) returns (running: bool, ghost a: Answers)
      requires Readable(m) && FlagsOfInstances(S())
      modifies this
      ensures S() == Handle(old(S()), m, a) && running == !m.Shutdown?
      ensures Grown(plugins, old(recvQueue), recvQueue)
      ensures m.Unsubscribe? && !CallsPlugins(old(S()).(subs := Leave(old(subscribers), m.key, m.who))) ==> recvQueue == old(recvQueue)
    {
      a := Answers(false, false);
      running := true;
      match m {
        case Enabled(name) =>
          var ok := EnableInstance(name);
          a := Answers(ok, false);
        case Disabled(name) =>
          DisableInstance(name);
        case DisabledForce(name) =>
          DisableInstance(name);
        case Subscribe(key, who) =>
          var ok;
          ok, a := Subscribe(key, who);
        case Unsubscribe(key, who) =>
          Unsubscribe(key, who);
        case UnsubscribeSdk(fd) =>
          UnsubscribeSdk(fd);
        case Publish(topic) =>
          var ok;
          ok, a := Publish(topic);
        case PublishData(key) =>
          PublishData(key);
        case Shutdown =>
          running := false;
          GrownOnce(plugins, recvQueue, 0);
      }
    }

    /**
     * HandleMessage over a teardown: the queue is worked off completely, plugins' own unsubscriptions included.
     * `chain` are the states after each message.
     */
    method HandleTeardown() returns (ghost chain: seq<System>)
      requires Inv(S()) && AllTakeDown(recvQueue) && AllReadable(recvQueue)
      requires forall m :: FromPlugin(plugins, m) ==> m.Unsubscribe? && Readable(m)
      modifies this
      ensures recvQueue == [] && Inv(S())
      ensures |chain| > 0 && chain[0] == System(old(S()), old(recvQueue), false) && Last(chain) == System(S(), [], false)
      ensures forall i :: 0 <= i < |chain| - 1 ==> TeardownTo(chain[i], chain[i + 1])
    {
      chain := [System(S(), recvQueue, false)];
      while |recvQueue| > 0
        invariant Inv(S()) && AllTakeDown(recvQueue) && AllReadable(recvQueue)
        invariant |chain| > 0 && chain[0] == System(old(S()), old(recvQueue), false) && Last(chain) == System(S(), recvQueue, false)
        invariant forall i :: 0 <= i < |chain| - 1 ==> TeardownTo(chain[i], chain[i + 1])
        decreases Others(recvQueue), Standing(S()), |recvQueue|
      {
        ghost var s, before := System(S(), recvQueue, false), chain;
        ghost var a, posted := HandleFirst();
        TeardownEnds(s, a, posted);
        TeardownGoesOn(s, a, posted);
        ghost var r := System(S(), recvQueue, false);
        assert r == TakeOne(s, a, posted);
        chain := chain + [r];
        assert forall i :: 0 <= i < |before| ==> chain[i] == before[i];
        hide TeardownStep;
        hide TakeOne;
        hide Inv;
      }
    }

    /** Takes the first message of a teardown queue and handles it. */
    method HandleFirst() returns (ghost a: Answers, ghost posted: seq<Msg>)
      requires Inv(S()) && |recvQueue| > 0 && AllTakeDown(recvQueue) && AllReadable(recvQueue)
      requires forall m :: FromPlugin(plugins, m) ==> m.Unsubscribe? && Readable(m)
      modifies this
      ensures Inv(S()) && AllReadable(posted) && TeardownStep(System(old(S()), old(recvQueue), false), a, posted)
      ensures System(S(), recvQueue, false) == TakeOne(System(old(S()), old(recvQueue), false), a, posted)
    {
      hide Handle;
      hide Inv;
      var running;
      running, a, posted := HandleNext();
      assert AllUnsubscribe(posted);
    }

    /** One turn of HandleMessage: the first message is taken and handled. */
    method HandleNext() returns (running: bool, ghost a: Answers, ghost posted: seq<Msg>)
      requires Inv(S()) && |recvQueue| > 0 && AllReadable(recvQueue)
      requires forall m :: FromPlugin(plugins, m) ==> Readable(m)
      modifies this
      ensures Inv(S()) && AllReadable(posted) && forall m :: m in posted ==> FromPlugin(plugins, m)
      ensures System(S(), recvQueue, !running) == TakeOne(System(old(S()), old(recvQueue), false), a, posted)
      ensures var m := old(recvQueue)[0];
              m.Unsubscribe? && !CallsPlugins(old(S()).(subs := Leave(old(subscribers), m.key, m.who))) ==> posted == []
    {
      ghost var s := System(S(), recvQueue, false);
      var m := recvQueue[0];
      recvQueue := recvQueue[1..];
      ghost var rest := recvQueue;
      HandleKeepsAll(s.h, m);
      hide Handle;
      hide Inv;
      var r, b := HandleOne(m);
      running, a, posted := r, b, recvQueue[|rest|..];
      assert recvQueue == rest + posted;
    }

    /**
     * HandleMessage over any queue, for at most `limit` messages: it ends when the queue is empty or a message shuts
     * the handler down. `chain` are the states after each message.
     */
    method HandleMessage(limit: nat) returns (running: bool, ghost chain: seq<System>)
      requires Inv(S()) && AllReadable(recvQueue) && forall m :: FromPlugin(plugins, m) ==> Readable(m)
      modifies this
      ensures Inv(S()) && AllReadable(recvQueue) && 0 < |chain| <= limit + 1
      ensures chain[0] == System(old(S()), old(recvQueue), false) && Last(chain) == System(S(), recvQueue, !running)
      ensures forall i :: 0 <= i < |chain| - 1 ==> Taken(chain[i], chain[i + 1])
      ensures running ==> recvQueue == [] || |chain| == limit + 1
    {
      running, chain := true, [System(S(), recvQueue, false)];
      var n := limit;
      while running && |recvQueue| > 0 && n > 0
        invariant Inv(S()) && AllReadable(recvQueue) && |chain| + n == limit + 1
        invariant |chain| > 0 && chain[0] == System(old(S()), old(recvQueue), false)
        invariant Last(chain) == System(S(), recvQueue, !running)
        invariant forall i :: 0 <= i < |chain| - 1 ==> Taken(chain[i], chain[i + 1])
        decreases n
      {
        ghost var s, before := System(S(), recvQueue, false), chain;
        ghost var a, posted;
        running, a, posted := HandleNext();
        ghost var r := System(S(), recvQueue, !running);
        assert Taken(s, r);
        chain, n := chain + [r], n - 1;
        assert forall i :: 0 <= i < |before| ==> chain[i] == before[i];
        hide Taken;
        hide TakeOne;
        hide Inv;
      }
    }

    // ---------- The schedule ----------

    /** The entry at the top of the queue. */
    method Top() returns (found: bool, name: string, x: nat)
      ensures found ==> IsTop(instances, name, x)
      ensures !found ==> forall n :: n in instances ==> instances[n].pending == multiset{}
    {
      found := exists n :: n in instances && instances[n].pending != multiset{};
      name, x := "", 0;
      if found {
        ghost var m :| m in instances && instances[m].pending != multiset{};
        TopExists(instances, m);
        name, x :| IsTop(instances, name, x);
      }
    }

    /** Runs one due entry of an instance, the first in the queue. */
    method RunDue(name: string) returns (ran: bool)
      requires name in instances && time in instances[name].pending
      modifies this`instances, this`recvQueue, this`calls
      ensures var i := old(instances)[name];
              ran == i.enabled && instances == old(instances)[name := AfterDue(i, time)]
      ensures Grown(plugins, old(recvQueue), recvQueue)
    {
      hide Rerun;
      GrownOnce(plugins, recvQueue, 0);
      var i := instances[name];
      var rest := i.(pending := i.pending - multiset{time});
      instances := instances[name := rest];
      ran := rest.enabled;
      if ran {
        RunAndRequeue(name);
      }
    }

    /** Runs an instance: one that runs once is closed, any other is queued again one period later. */
    method RunAndRequeue(name: string)
      requires name in instances
      modifies this`instances, this`recvQueue, this`calls
      ensures instances == old(instances)[name := Rerun(old(instances)[name], time)]
      ensures Grown(plugins, old(recvQueue), recvQueue)
    {
      ghost var q0 := recvQueue;
      var _ := Call();
      var i := instances[name];
      if i.info.runOnce {
        ghost var q := recvQueue;
        DisableInstance(name);
        GrownTwice(plugins, q0, q, recvQueue);
      } else {
        instances := instances[name := i.(pending := i.pending + multiset{time + i.info.period})];
      }
    }

    /** One turn of the loop of Schedule; `more` is false when nothing is due. */
    method ScheduleOne(before: seq<string>, ghost s: Handler, ghost todo: multiset<string>) returns (more: bool, ran: seq<string>, ghost rest: multiset<string>)
      requires Partial(s, S(), todo, before)
      modifies this`instances, this`recvQueue, this`calls
      ensures Partial(s, S(), rest, ran)
      ensures more ==> |rest| < |todo| && !Overdue(s)
      ensures !more ==> S() == old(S()) && ran == before && (rest == multiset{} || Overdue(s))
      ensures Grown(plugins, old(recvQueue), recvQueue)
    {
      hide Partial;
      hide AfterDue;
      hide Overdue;
      GrownOnce(plugins, recvQueue, 0);
      hide Grown;
      ran, rest := before, todo;
      var found, name, x := Top();
      TopIsDue(s, S(), todo, before, found, name, x);
      SameClock(s, S(), todo, before);
      hide IsTop;
      more := found && x == time;
      if more {
        PartialStep(s, S(), todo, before, name);
        var did := RunDue(name);
        if did {
          ran := ran + [name];
        }
        rest := todo - multiset{name};
      }
    }

    /** Schedule: runs everything that is due, in the order of the priority numbers. */
    method Schedule() returns (ran: seq<string>)
      requires Periodic(S())
      modifies this`instances, this`recvQueue, this`calls
      ensures S() == Tick(old(S()))
      ensures forall n :: multiset(ran)[n] == Runs(old(S()), n)
      ensures forall i :: 0 <= i < |ran| ==> ran[i] in old(instances)
      ensures forall i, j :: 0 <= i < j < |ran| ==> old(instances)[ran[i]].info.priority <= old(instances)[ran[j]].info.priority
      ensures Grown(plugins, old(recvQueue), recvQueue)
    {
      ghost var s, q0 := S(), recvQueue;
      ghost var todo := DueBag(instances, time, instances.Keys);
      ran := [];
      var more := true;
      PartialStarts(s, todo);
      GrownOnce(plugins, q0, 0);
      hide Partial;
      hide Overdue;
      hide Grown;
      hide Tick;
      while more
        invariant Partial(s, S(), todo, ran)
        invariant more || todo == multiset{} || Overdue(s)
        invariant Overdue(s) ==> S() == s && ran == []
        invariant Grown(plugins, q0, recvQueue)
        decreases more, |todo|
      {
        ghost var q := recvQueue;
        more, ran, todo := ScheduleOne(ran, s, todo);
        GrownTwice(plugins, q0, q, recvQueue);
      }
      PartialEnds(s, S(), todo, ran);
    }

    /** The rest of a turn of Start: the schedule, and the wait for the next tick. */
    method TickAndSleep(cycle: nat) returns (ran: seq<string>)
      requires Periodic(S())
      modifies this`instances, this`recvQueue, this`calls, this`time
      ensures S() == AddTime(Tick(old(S())), cycle)
      ensures forall n :: multiset(ran)[n] == Runs(old(S()), n)
      ensures forall i :: 0 <= i < |ran| ==> ran[i] in old(instances)
      ensures forall i, j :: 0 <= i < j < |ran| ==> old(instances)[ran[i]].info.priority <= old(instances)[ran[j]].info.priority
      ensures Grown(plugins, old(recvQueue), recvQueue)
    {
      ran := Schedule();
      time := time + cycle;
    }
  }
}
