/**
 * What every message and every tick does to the tables, said of the tables themselves: who subscribes, which flags are
 * up, which instances are enabled, what is open at their plugins, and when they are to run.
 */
module RunMeaning {
  import opened Seqs
  import opened TopicKey
  import opened RunSpec

  /** `who` is in the subscriber set of the key. */
  predicate Subscribes(s: Handler, key: string, who: string) {
    key in s.subs && who in s.subs[key]
  }

  predicate Up(s: Handler, t: Topic) {
    t in s.flags && s.flags[t]
  }

  /** The instance has an entry in the flag table. */
  ghost predicate HasTopic(s: Handler, n: string) {
    exists t :: t in s.flags && t.instanceName == n
  }

  ghost predicate HasRaised(s: Handler, n: string) {
    exists t :: Up(s, t) && t.instanceName == n
  }

  /** A subscription is accepted when the instance exists, is or gets enabled, and its topic is or gets open. */
  predicate Accepted(s: Handler, t: Topic, a: Answers) {
    && t.instanceName in s.insts && (s.insts[t.instanceName].enabled || a.enableOk)
    && (Up(s, t) || a.openOk)
  }

  /** A publication reaches an existing instance, for a topic it supports or for none. */
  predicate Reaches(s: Handler, t: Topic) {
    t.instanceName in s.insts && (t.topicName == "" || t.topicName in s.insts[t.instanceName].supports)
  }

  predicate TopicOf(key: string, t: Topic) {
    GetTopicFromType(key) == Some(t)
  }

  // ---------- Results ----------

  lemma SubscribeResult(s: Handler, key: string, who: string, a: Answers, t: Topic)
    requires TopicOf(key, t)
    ensures SubscribeTo(s, key, who, a).1 <==> Accepted(s, t, a)
  {
    hide Named;
  }

  /** An unsupported topic is refused, and so is one whose instance does not start or whose plugin does not open it. */
  lemma PublishResult(s: Handler, t: Topic, a: Answers)
    ensures PublishTo(s, t, a).1 <==>
            && Reaches(s, t) && (s.insts[t.instanceName].enabled || a.enableOk)
            && (t.topicName == "" || a.openOk)
  {
  }

  // ---------- Subscribers ----------

  /** Who subscribes after a message: only subscribing and the two ways of unsubscribing make a difference. */
  lemma SubscribersAfter(s: Handler, m: Msg, a: Answers, k: string, w: string)
    requires Readable(m)
    ensures Subscribes(Handle(s, m, a), k, w) <==>
            match m
            case Subscribe(key, who) => Subscribes(s, k, w) || (k == key && w == who && Accepted(s, GetTopicFromType(key).value, a))
            case Unsubscribe(key, who) => Subscribes(s, k, w) && !(k == key && w == who)
            case UnsubscribeSdk(fd) => Subscribes(s, k, w) && w != fd
            case _ => Subscribes(s, k, w)
  {
    match m
    case Subscribe(key, who) => SubscribeTables(s, key, who, a, GetTopicFromType(key).value);
      hide SubscribeTo;
      hide Accepted;
    case Unsubscribe(key, who) =>
      RefreshTables(s.(subs := Leave(s.subs, key, who)));
      LeaveReaders(s, key, who, k, w);
      hide Refresh;
      hide Leave;
    case UnsubscribeSdk(fd) =>
      RefreshTables(s.(subs := LeaveAll(s.subs, fd)));
      LeaveAllReaders(s, fd, k, w);
      hide Refresh;
      hide LeaveAll;
      hide Reads;
    case _ =>
  }

  lemma LeaveReaders(s: Handler, key: string, who: string, k: string, w: string)
    ensures Subscribes(s.(subs := Leave(s.subs, key, who)), k, w) <==> Subscribes(s, k, w) && !(k == key && w == who)
  {
    var rest := (if key in s.subs then s.subs[key] else {}) - {who};
    assert w in rest <==> Subscribes(s, key, w) && w != who;
  }

  lemma LeaveAllReaders(s: Handler, fd: string, k: string, w: string)
    ensures Subscribes(s.(subs := LeaveAll(s.subs, fd)), k, w) <==> Subscribes(s, k, w) && w != fd
    ensures !Reads(s.subs, fd) && Subscribes(s, k, w) ==> w != fd
  {
  }

  /** Which keys have an entry, perhaps an empty one: sending data makes one, and losing the last reader removes it. */
  lemma KeysAfter(s: Handler, m: Msg, a: Answers, k: string)
    requires Readable(m)
    ensures k in Handle(s, m, a).subs <==>
            match m
            case Subscribe(key, who) => k in s.subs || (k == key && Accepted(s, GetTopicFromType(key).value, a))
            case Unsubscribe(key, who) => if k == key then ReadBeside(s, key, who) else k in s.subs
            case UnsubscribeSdk(fd) => k in s.subs && (Subscribes(s, k, fd) ==> ReadBeside(s, k, fd))
            case PublishData(key) => k in s.subs || k == key
            case _ => k in s.subs
  {
    hide ReadBeside;
    match m
    case Subscribe(key, who) => SubscribeTables(s, key, who, a, GetTopicFromType(key).value);
      hide SubscribeTo;
      hide Accepted;
    case Unsubscribe(key, who) =>
      RefreshTables(s.(subs := Leave(s.subs, key, who)));
      LeaveKeys(s, key, who, k);
      hide Refresh;
      hide Leave;
    case UnsubscribeSdk(fd) =>
      RefreshTables(s.(subs := LeaveAll(s.subs, fd)));
      LeaveAllKeys(s, fd, k);
      SomeSubscription(s, fd);
      assert Handle(s, m, a).subs == if Reads(s.subs, fd) then LeaveAll(s.subs, fd) else s.subs;
      hide Refresh;
      hide LeaveAll;
      hide Reads;
    case _ =>
  }

  /** Somebody other than `who` subscribes to the key. */
  ghost predicate ReadBeside(s: Handler, key: string, who: string) {
    exists w :: w != who && Subscribes(s, key, w)
  }

  lemma LeaveKeys(s: Handler, key: string, who: string, k: string)
    ensures k in Leave(s.subs, key, who) <==> if k == key then ReadBeside(s, key, who) else k in s.subs
  {
    LastReader(s, key, who);
    hide Subscribes;
  }

  lemma LeaveAllKeys(s: Handler, fd: string, k: string)
    ensures k in LeaveAll(s.subs, fd) <==> k in s.subs && (Subscribes(s, k, fd) ==> ReadBeside(s, k, fd))
    ensures !Reads(s.subs, fd) ==> !Subscribes(s, k, fd)
  {
    LastReader(s, k, fd);
    if k in s.subs && fd !in s.subs[k] {
      assert fd in {fd};
    }
  }

  lemma LastReader(s: Handler, k: string, w: string)
    ensures ReadBeside(s, k, w) <==> (if k in s.subs then s.subs[k] else {}) - {w} != {}
    ensures k in s.subs && w in s.subs[k] ==> (ReadBeside(s, k, w) <==> s.subs[k] != {w})
  {
    var all := if k in s.subs then s.subs[k] else {};
    if all - {w} != {} {
      var v :| v in all - {w};
      assert v != w && Subscribes(s, k, v);
    }
    if v :| v != w && Subscribes(s, k, v) {
      assert v in all - {w};
    }
  }

  // ---------- Flags ----------

  /** Refreshing leaves the subscriber table alone and lowers the flags of topics without an entry there. */
  lemma RefreshTables(s: Handler)
    ensures Refresh(s).subs == s.subs && Refresh(s).time == s.time
    ensures forall t :: Up(Refresh(s), t) <==> Up(s, t) && GetType(t) in s.subs
    ensures forall t :: t in Refresh(s).flags <==> t in s.flags
    ensures Refresh(s).insts.Keys == s.insts.Keys
  {
    hide RefreshI;
  }

  lemma SubscribeTables(s: Handler, key: string, who: string, a: Answers, t: Topic)
    requires TopicOf(key, t)
    ensures var r := SubscribeTo(s, key, who, a).0;
            && r.insts.Keys == s.insts.Keys && r.time == s.time
            && (forall u :: Up(r, u) <==> Up(s, u) || (u == t && Accepted(s, t, a)))
            && (forall u :: u in r.flags <==> u in s.flags || (u == t && t.instanceName in s.insts && (s.insts[t.instanceName].enabled || a.enableOk)))
            && r.subs == if Accepted(s, t, a) then s.subs[key := (if key in s.subs then s.subs[key] else {}) + {who}] else s.subs
  {
    hide Named;
  }

  /** Which flags are up after a message. */
  lemma FlagsAfter(s: Handler, m: Msg, a: Answers, t: Topic)
    requires Readable(m)
    ensures Up(Handle(s, m, a), t) <==>
            match m
            case Subscribe(key, who) => Up(s, t) || (TopicOf(key, t) && Accepted(s, t, a))
            case Unsubscribe(_, _) => Up(s, t) && GetType(t) in Handle(s, m, a).subs
            case UnsubscribeSdk(fd) => Up(s, t) && ((exists k :: Subscribes(s, k, fd)) ==> GetType(t) in Handle(s, m, a).subs)
            case _ => Up(s, t)
  {
    match m
    case Subscribe(key, who) => SubscribeTables(s, key, who, a, GetTopicFromType(key).value);
      hide SubscribeTo;
      hide Accepted;
    case Unsubscribe(key, who) =>
      RefreshTables(s.(subs := Leave(s.subs, key, who)));
      hide Refresh;
    case UnsubscribeSdk(fd) =>
      RefreshTables(s.(subs := LeaveAll(s.subs, fd)));
      SomeSubscription(s, fd);
      hide Refresh;
    case _ =>
  }

  lemma SomeSubscription(s: Handler, fd: string)
    ensures (exists k :: Subscribes(s, k, fd)) <==> Reads(s.subs, fd)
  {
    if Reads(s.subs, fd) {
      var k :| k in s.subs && fd in s.subs[k];
      assert Subscribes(s, k, fd);
    }
  }

  // ---------- Enabled instances ----------

  /** After a refresh an instance with an entry in the flag table is enabled only if one of its flags is still up. */
  lemma RefreshEnabled(s: Handler, n: string)
    requires n in s.insts
    ensures n in Refresh(s).insts
    ensures Refresh(s).insts[n].enabled <==> s.insts[n].enabled && (HasTopic(s, n) ==> HasRaised(Refresh(s), n))
  {
    var r := Refresh(s);
    if HasRaised(r, n) {
      var t :| Up(r, t) && t.instanceName == n;
      assert Flag(s, t) && GetType(t) in s.subs;
    }
    if Live(s, n) {
      var t :| Flag(s, t) && t.instanceName == n && GetType(t) in s.subs;
      assert Up(r, t);
    }
    hide GetType;
  }

  /** An instance after a subscription. */
  lemma SubscribeInst(s: Handler, key: string, who: string, a: Answers, n: string, t: Topic)
    requires TopicOf(key, t) && n in s.insts
    ensures var r, i := SubscribeTo(s, key, who, a).0, s.insts[n];
            var e := if i.enabled then i else EnableI(i, s.time);
            && n in r.insts
            && r.insts[n] == if n != t.instanceName || (!i.enabled && !a.enableOk) then i
                             else if Up(s, t) then e
                             else if a.openOk then OpenI(e, t)
                             else ShutI(e)
  {
    hide EnableI;
    hide OpenI;
    hide ShutI;
  }

  /** Which instances are enabled after a message. */
  lemma EnabledAfter(s: Handler, m: Msg, a: Answers, n: string)
    requires Readable(m) && n in s.insts
    ensures n in Handle(s, m, a).insts
    ensures var r, on := Handle(s, m, a), s.insts[n].enabled;
            r.insts[n].enabled <==>
            match m
            case Enabled(k) => on || (k == n && a.enableOk)
            case Disabled(k) => on && k != n
            case DisabledForce(k) => on && k != n
            case Subscribe(key, _) =>
              var t := GetTopicFromType(key).value;
              if t.instanceName == n then Accepted(s, t, a) else on
            case Unsubscribe(_, _) => on && (HasTopic(s, n) ==> HasRaised(r, n))
            case UnsubscribeSdk(fd) => on && ((exists k :: Subscribes(s, k, fd)) && HasTopic(s, n) ==> HasRaised(r, n))
            case Publish(t) => on || (t.instanceName == n && Reaches(s, t) && a.enableOk)
            case _ => on
  {
    match m
    case Unsubscribe(key, who) => RefreshEnabled(s.(subs := Leave(s.subs, key, who)), n);
      hide Refresh;
    case UnsubscribeSdk(fd) =>
      RefreshEnabled(s.(subs := LeaveAll(s.subs, fd)), n);
      SomeSubscription(s, fd);
      hide Refresh;
    case Subscribe(key, who) => SubscribeInst(s, key, who, a, n, GetTopicFromType(key).value);
      hide SubscribeTo;
    case _ => hide Named;
  }

  // ---------- Entries in the schedule ----------

  /** The message enables instance n. */
  predicate Wakes(s: Handler, m: Msg, a: Answers, n: string)
    requires Readable(m) && n in s.insts
  {
    a.enableOk &&
    match m
    case Enabled(k) => k == n
    case Subscribe(key, _) => !s.insts[n].enabled && GetTopicFromType(key).value.instanceName == n
    case Publish(t) => !s.insts[n].enabled && t.instanceName == n && Reaches(s, t)
    case _ => false
  }

  /** Enabling adds one entry: at once for a collector, after a period for a scenario, after two for a tune. */
  ghost predicate EntryAdded(i: Inst, r: Handler, n: string, now: nat, woken: bool) {
    && n in r.insts && r.time == now && r.insts[n].info == i.info && r.insts[n].supports == i.supports
    && var first := if i.info.scenario then now + i.info.period else if i.info.tune then now + 2 * i.info.period else now;
       if woken then r.insts[n].pending == i.pending + multiset{first} && r.insts[n].enableCnt == i.enableCnt + 1
       else r.insts[n].pending == i.pending && r.insts[n].enableCnt == i.enableCnt
  }

  lemma EntriesAfter(s: Handler, m: Msg, a: Answers, n: string)
    requires Readable(m) && n in s.insts
    ensures EntryAdded(s.insts[n], Handle(s, m, a), n, s.time, Wakes(s, m, a, n))
  {
    match m
    case Enabled(k) =>
    case Subscribe(key, who) =>
      SubscribeRuns(s, key, who, a, n, GetTopicFromType(key).value);
      hide SubscribeTo;
      hide EntryAdded;
    case Unsubscribe(key, who) => RefreshRuns(s.(subs := Leave(s.subs, key, who)), n);
      hide Refresh;
    case UnsubscribeSdk(fd) => RefreshRuns(s.(subs := LeaveAll(s.subs, fd)), n);
      hide Refresh;
    case Publish(t) => PublishRuns(s, t, a, n);
      hide PublishTo;
      hide EntryAdded;
    case _ => hide Named;
  }

  lemma SubscribeRuns(s: Handler, key: string, who: string, a: Answers, n: string, t: Topic)
    requires TopicOf(key, t) && n in s.insts
    ensures EntryAdded(s.insts[n], SubscribeTo(s, key, who, a).0, n, s.time, Wakes(s, Subscribe(key, who), a, n))
  {
    SubscribeInst(s, key, who, a, n, t);
    SubscribeTables(s, key, who, a, t);
    hide SubscribeTo;
    hide Named;
    hide Accepted;
  }

  lemma PublishRuns(s: Handler, t: Topic, a: Answers, n: string)
    requires n in s.insts
    ensures EntryAdded(s.insts[n], PublishTo(s, t, a).0, n, s.time, Wakes(s, Publish(t), a, n))
  {
    hide GetType;
  }

  lemma RefreshRuns(s: Handler, n: string)
    requires n in s.insts
    ensures var r, i := Refresh(s), s.insts[n];
            && n in r.insts && r.time == s.time && r.insts[n].info == i.info && r.insts[n].supports == i.supports
            && r.insts[n].pending == i.pending && r.insts[n].enableCnt == i.enableCnt
  {
    hide Named;
    hide Idle;
  }

  // ---------- What is open at the plugins ----------

  /** One of the instance's kept keys names the topic. */
  ghost predicate Kept(i: Inst, t: Topic) {
    exists k :: k in i.open && TopicOf(k, t)
  }

  /** The message opens topic t at its instance. */
  predicate Opens(s: Handler, m: Msg, a: Answers, t: Topic)
    requires Readable(m)
  {
    a.openOk &&
    match m
    case Subscribe(key, _) => TopicOf(key, t) && Accepted(s, t, a) && !Up(s, t)
    case Publish(u) => u == t && t.topicName != "" && Reaches(s, t) && (s.insts[t.instanceName].enabled || a.enableOk)
    case _ => false
  }

  /** The message closes topic t because its flag is lowered. */
  predicate Lowers(s: Handler, r: Handler, t: Topic) {
    Up(s, t) && !Up(r, t)
  }

  /** The message makes the plugin of n stop, whether it was enabled before or is so only meanwhile. */
  ghost predicate Stops(s: Handler, m: Msg, a: Answers, n: string)
    requires Readable(m) && n in s.insts
  {
    match m
    case Disabled(k) => k == n
    case DisabledForce(k) => k == n
    case Subscribe(key, _) =>
      var t := GetTopicFromType(key).value;
      t.instanceName == n && (s.insts[n].enabled || a.enableOk) && !Accepted(s, t, a)
    case Unsubscribe(_, _) => var r := Handle(s, m, a); s.insts[n].enabled && n in r.insts && !r.insts[n].enabled
    case UnsubscribeSdk(_) => var r := Handle(s, m, a); s.insts[n].enabled && n in r.insts && !r.insts[n].enabled
    case _ => false
  }

  /** The keys an instance keeps: those of opened topics, until their flags are lowered. Stopping keeps them. */
  lemma KeptAfter(s: Handler, m: Msg, a: Answers, n: string, k: string)
    requires Readable(m) && n in s.insts
    ensures var r := Handle(s, m, a);
            && n in r.insts
            && (k in r.insts[n].open <==>
                 || (k in s.insts[n].open && forall t: Topic :: t.instanceName == n && GetType(t) == k ==> !Lowers(s, r, t))
                 || exists t: Topic :: t.instanceName == n && GetType(t) == k && Opens(s, m, a, t))
  {
    match m
    case Subscribe(key, who) => SubscribeKept(s, key, who, a, n, k, GetTopicFromType(key).value);
    case Unsubscribe(key, who) => RefreshKept(s.(subs := Leave(s.subs, key, who)), s, n, k);
      hide Refresh;
    case UnsubscribeSdk(fd) =>
      RefreshKept(s.(subs := LeaveAll(s.subs, fd)), s, n, k);
      hide Refresh;
    case Publish(t) =>
    case _ =>
  }

  lemma RefreshKept(s: Handler, before: Handler, n: string, k: string)
    requires n in s.insts && before.flags == s.flags && before.insts == s.insts
    ensures var r := Refresh(s);
            && n in r.insts
            && (k in r.insts[n].open <==> k in s.insts[n].open && forall t: Topic :: t.instanceName == n && GetType(t) == k ==> !Lowers(before, r, t))
  {
    var r := Refresh(s);
    assert forall t :: Lowers(before, r, t) <==> Stale(s, t);
    assert forall t :: t in StaleOf(s, n) <==> Stale(s, t) && t.instanceName == n;
    assert r.insts[n].open == Pruned(s, n).open;
    hide Stale;
    hide GetType;
  }

  lemma SubscribeKept(s: Handler, key: string, who: string, a: Answers, n: string, k: string, t: Topic)
    requires TopicOf(key, t) && n in s.insts
    ensures var m, r := Subscribe(key, who), SubscribeTo(s, key, who, a).0;
            && n in r.insts
            && (k in r.insts[n].open <==> k in s.insts[n].open || (t.instanceName == n && GetType(t) == k && Opens(s, m, a, t)))
            && forall u :: !Lowers(s, r, u)
  {
    SubscribeInst(s, key, who, a, n, t);
    SubscribeTables(s, key, who, a, t);
    hide SubscribeTo;
    hide Named;
    hide GetType;
  }

  /** The topics open at a plugin: opened and not closed since, neither on their own nor through a kept key when the plugin stops. */
  lemma OpenAfter(s: Handler, m: Msg, a: Answers, n: string, t: Topic)
    requires Readable(m) && n in s.insts
    ensures var r := Handle(s, m, a);
            && n in r.insts
            && (t in r.insts[n].atPlugin <==>
                 && (if t.instanceName == n then (t in s.insts[n].atPlugin && !Lowers(s, r, t)) || Opens(s, m, a, t)
                     else t in s.insts[n].atPlugin)
                 && !(Stops(s, m, a, n) && Kept(r.insts[n], t)))
  {
    match m
    case Subscribe(key, who) => SubscribeOpen(s, key, who, a, n, t, GetTopicFromType(key).value);
    case Unsubscribe(key, who) => RefreshOpen(s.(subs := Leave(s.subs, key, who)), s, n, t);
      hide Refresh;
    case UnsubscribeSdk(fd) =>
      RefreshOpen(s.(subs := LeaveAll(s.subs, fd)), s, n, t);
      hide Refresh;
    case _ => KeptIsNamed(s.insts[n], t);
  }

  lemma KeptIsNamed(i: Inst, t: Topic)
    ensures Kept(i, t) <==> Named(i.open, t)
  {
    assert forall k :: TopicOf(k, t) <==> GetTopicFromType(k) == Some(t);
  }

  lemma RefreshOpen(s: Handler, before: Handler, n: string, t: Topic)
    requires n in s.insts && before.flags == s.flags && before.insts == s.insts
    ensures var r := Refresh(s);
            && n in r.insts
            && (t in r.insts[n].atPlugin <==>
                 && t in s.insts[n].atPlugin && !(t.instanceName == n && Lowers(before, r, t))
                 && !(s.insts[n].enabled && !r.insts[n].enabled && Kept(r.insts[n], t)))
  {
    var r := Refresh(s);
    assert Lowers(before, r, t) <==> Stale(s, t);
    assert t in StaleOf(s, n) <==> Stale(s, t) && t.instanceName == n;
    assert r.insts[n] == RefreshI(s, n);
    KeptIsNamed(r.insts[n], t);
    hide Stale;
    hide GetType;
    hide Named;
    hide Kept;
  }

  lemma SubscribeOpen(s: Handler, key: string, who: string, a: Answers, n: string, t: Topic, u: Topic)
    requires TopicOf(key, u) && n in s.insts
    ensures var m, r := Subscribe(key, who), SubscribeTo(s, key, who, a).0;
            && n in r.insts && !Lowers(s, r, t)
            && (t in r.insts[n].atPlugin <==>
                 && (t in s.insts[n].atPlugin || (t.instanceName == n && Opens(s, m, a, t)))
                 && !(Stops(s, m, a, n) && Kept(r.insts[n], t)))
  {
    SubscribeInst(s, key, who, a, n, u);
    SubscribeTables(s, key, who, a, u);
    KeptIsNamed(s.insts[n], t);
    KeptIsNamed(SubscribeTo(s, key, who, a).0.insts[n], t);
    hide SubscribeTo;
    hide Named;
    hide Kept;
    hide GetType;
  }

  // ---------- Ticks ----------

  /** Some entry lies before the clock. */
  ghost predicate Late(s: Handler) {
    exists n, x :: n in s.insts && x in s.insts[n].pending && x < s.time
  }

  /** Nothing runs and nothing changes once an entry lies before the clock. */
  lemma LateTick(s: Handler)
    ensures Late(s) ==> Tick(s) == s && forall n :: Runs(s, n) == 0
  {
  }

  /** Nothing but instances is touched by a tick. */
  lemma TickTables(s: Handler)
    ensures var r := Tick(s); r.flags == s.flags && r.subs == s.subs && r.time == s.time && r.insts.Keys == s.insts.Keys
  {
  }

  /**
   * Otherwise every entry at the clock's time is taken. One of a disabled instance is dropped. An instance that runs once
   * does so, and stops: its plugin closes what the kept keys lead to. Any other runs once for each entry, which comes back
   * a period later.
   */
  lemma TickMeaning(s: Handler, n: string)
    requires !Late(s) && Periodic(s) && n in s.insts
    ensures n in Tick(s).insts
    ensures var i, j, due := s.insts[n], Tick(s).insts[n], s.insts[n].pending[s.time];
            var stops := i.enabled && i.info.runOnce && due > 0;
            && j.info == i.info && j.supports == i.supports && j.enableCnt == i.enableCnt && j.open == i.open
            && (j.enabled <==> i.enabled && !stops)
            && (forall t :: t in j.atPlugin <==> t in i.atPlugin && !(stops && Kept(i, t)))
            && Runs(s, n) == (if !i.enabled then 0 else if i.info.runOnce && due > 0 then 1 else due)
            && forall x: nat :: j.pending[x] == if x == s.time then 0
                 else i.pending[x] + (if i.enabled && !i.info.runOnce && x == s.time + i.info.period then due else 0)
  {
    var i := s.insts[n];
    assert !Overdue(s);
    forall t ensures Kept(i, t) <==> Named(i.open, t) {
      KeptIsNamed(i, t);
    }
    hide Named;
    hide Kept;
  }
}
