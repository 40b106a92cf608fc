/**
 * What messages and ticks keep. Scheduling facts survive every message. Flags and subscribers agree as long as
 * subscription keys are canonical. Disabled instances have nothing open as long as opened topics name themselves back.
 */
module RunInvariant {
  import opened Seqs
  import opened TopicKey
  import opened RunSpec

  /** Somebody subscribes to the key. */
  predicate Subscribed(s: Handler, key: string) {
    key in s.subs && s.subs[key] != {}
  }

  // ---------- What every message keeps ----------

  ghost predicate FlagsOfInstances(s: Handler) {
    forall t :: t in s.flags ==> t.instanceName in s.insts
  }

  /** An enabled instance is scheduled; nothing has more entries than it was enabled times. */
  ghost predicate Scheduled(i: Inst) {
    (i.enabled ==> |i.pending| > 0) && |i.pending| <= i.enableCnt
  }

  ghost predicate Inv(s: Handler) {
    FlagsOfInstances(s) && forall n :: n in s.insts ==> Scheduled(s.insts[n])
  }

  lemma EnableScheduled(i: Inst, now: nat)
    requires Scheduled(i)
    ensures Scheduled(EnableI(i, now))
  {
  }

  lemma AwakeInv(s: Handler, n: string)
    requires Inv(s) && n in s.insts
    ensures Inv(Enable(s, n)) && Inv(Awake(s, n))
  {
    EnableScheduled(s.insts[n], s.time);
  }

  /** Every message keeps the schedule's bookkeeping, whatever the plugins answer. */
  lemma HandleKeeps(s: Handler, m: Msg, a: Answers)
    requires Inv(s) && Readable(m)
    ensures Inv(Handle(s, m, a))
  {
    match m
    case Enabled(n) =>
      if n in s.insts {
        AwakeInv(s, n);
      }
    case Subscribe(key, who) =>
      var t := GetTopicFromType(key).value;
      if t.instanceName in s.insts {
        AwakeInv(s, t.instanceName);
        OpenForInv(Awake(s, t.instanceName), t, a);
        hide Awake;
        hide OpenFor;
      }
    case Unsubscribe(key, who) => RefreshInv(s, Leave(s.subs, key, who));
    case UnsubscribeSdk(fd) => RefreshInv(s, LeaveAll(s.subs, fd));
    case Publish(t) =>
      if t.instanceName in s.insts {
        AwakeInv(s, t.instanceName);
        hide Awake;
      }
    case _ =>
  }

  lemma OpenForInv(s: Handler, t: Topic, a: Answers)
    requires Inv(s) && t.instanceName in s.insts
    ensures Inv(OpenFor(s, t, a))
  {
  }

  lemma RefreshInv(s: Handler, subs: map<string, set<string>>)
    requires Inv(s)
    ensures Inv(Refresh(s.(subs := subs)))
  {
    var m := s.(subs := subs);
    forall n | n in s.insts ensures Scheduled(RefreshI(m, n)) {
      assert Scheduled(s.insts[n]);
    }
  }

  lemma TickScheduled(i: Inst, now: nat)
    requires Scheduled(i)
    ensures Scheduled(TickI(i, now))
  {
    assert |i.pending[now := 0]| == |i.pending| - i.pending[now];
  }

  lemma TickKeeps(s: Handler, cycle: nat)
    requires Inv(s)
    ensures Inv(Tick(s)) && Inv(AddTime(s, cycle))
  {
    forall n | n in s.insts ensures Scheduled(TickI(s.insts[n], s.time)) {
      TickScheduled(s.insts[n], s.time);
    }
  }

  // ---------- Flags and subscribers ----------

  /** For every well-formed topic the open flag is the question whether anybody subscribes. */
  ghost predicate Agree(s: Handler) {
    forall t :: WellFormed(t) ==> (Flag(s, t) <==> Subscribed(s, GetType(t)))
  }

  lemma SameTablesAgree(s: Handler, r: Handler)
    requires Agree(s) && (forall t :: Flag(r, t) <==> Flag(s, t)) && forall k :: Subscribed(r, k) <==> Subscribed(s, k)
    ensures Agree(r)
  {
  }

  /** After UpdateInstance exactly the raised flags with an entry in the subscriber table stay raised. */
  lemma RefreshFlags(s: Handler, t: Topic)
    ensures Flag(Refresh(s), t) <==> Flag(s, t) && GetType(t) in s.subs
  {
  }

  /** Updating the instances after readers have left restores the agreement. */
  lemma RefreshAgrees(s: Handler, subs: map<string, set<string>>)
    requires Agree(s)
    requires forall k :: k in subs && subs[k] != {} ==> Subscribed(s, k)
    requires forall k :: Subscribed(s, k) && k in subs ==> subs[k] != {}
    ensures Agree(Refresh(s.(subs := subs)))
  {
    var m := s.(subs := subs);
    var r := Refresh(m);
    forall t | WellFormed(t) ensures Flag(r, t) <==> Subscribed(r, GetType(t)) {
      RefreshFlags(m, t);
      assert Flag(m, t) <==> Flag(s, t);
    }
  }

  lemma LeaveAgrees(s: Handler, key: string, who: string)
    requires Agree(s)
    ensures Agree(UnsubscribeFrom(s, key, who))
  {
    RefreshAgrees(s, Leave(s.subs, key, who));
  }

  lemma LeaveAllAgrees(s: Handler, fd: string)
    requires Agree(s)
    ensures Agree(UnsubscribeAll(s, fd))
  {
    RefreshAgrees(s, LeaveAll(s.subs, fd));
  }

  /** What an accepted subscription does to the two tables. */
  lemma AcceptedTables(s: Handler, key: string, who: string, a: Answers)
    requires GetTopicFromType(key).Some? && SubscribeTo(s, key, who, a).1
    ensures var r, t := SubscribeTo(s, key, who, a).0, GetTopicFromType(key).value;
            && (forall u :: Flag(r, u) <==> Flag(s, u) || u == t)
            && (forall k :: Subscribed(r, k) <==> Subscribed(s, k) || k == key)
  {
    var r, t := SubscribeTo(s, key, who, a).0, GetTopicFromType(key).value;
    assert who in r.subs[key];
  }

  lemma RefusedTables(s: Handler, key: string, who: string, a: Answers)
    requires GetTopicFromType(key).Some? && !SubscribeTo(s, key, who, a).1
    ensures var r := SubscribeTo(s, key, who, a).0;
            (forall u :: Flag(r, u) <==> Flag(s, u)) && forall k :: Subscribed(r, k) <==> Subscribed(s, k)
  {
  }

  /**
   * An accepted subscription keeps flags and subscribers in agreement exactly when its key is canonical, or the
   * flag of the topic it names was up already, or that topic is not well-formed. Any other key raises the flag of
   * a topic that is subscribed under a name of its own.
   */
  lemma SubscribeAgreesExactly(s: Handler, key: string, who: string, a: Answers)
    requires Agree(s) && GetTopicFromType(key).Some? && SubscribeTo(s, key, who, a).1
    ensures var t := GetTopicFromType(key).value;
            Agree(SubscribeTo(s, key, who, a).0) <==> Canonical(key) || Flag(s, t) || !WellFormed(t)
  {
    var r, t := SubscribeTo(s, key, who, a).0, GetTopicFromType(key).value;
    AcceptedTables(s, key, who, a);
    forall u | WellFormed(u) && u != t ensures Flag(r, u) <==> Subscribed(r, GetType(u)) {
      KeyRoundTrip(u);
      assert GetType(u) != key;
    }
    if Canonical(key) {
      assert GetType(t) == key;
    } else {
      assert GetType(t) != key;
    }
    hide SubscribeTo;
  }

  /** Such a key: "i::t" names the topic whose own key is "i::t::". */
  lemma TwoFieldKey()
    ensures var key, t := "i::t", Topic("i", "t", "");
            GetTopicFromType(key) == Some(t) && WellFormed(t) && GetType(t) == "i::t::" && !Canonical(key)
    ensures var i := Inst(Info(10, 0, false, false, false), {"t"}, false, 0, {}, {}, multiset{});
            var s := Handler(map["i" := i], map[], map[], 0);
            var r := SubscribeTo(s, "i::t", "1", Answers(true, true));
            Agree(s) && r.1 && !Agree(r.0)
  {
    var key, t := "i::t", Topic("i", "t", "");
    assert key == "i" + "::" + "t";
    NameIsToken("i", "t");
    PlainIsOneToken("t");
    assert Split("t") == ["t"] && Split(key) == ["i", "t"];
    assert GetType(t) == "i::t::";
    var i := Inst(Info(10, 0, false, false, false), {"t"}, false, 0, {}, {}, multiset{});
    var s := Handler(map["i" := i], map[], map[], 0);
    assert SubscribeTo(s, key, "1", Answers(true, true)).1;
    SubscribeAgreesExactly(s, key, "1", Answers(true, true));
  }

  /** Subscriptions that cannot disturb the agreement, whatever the state. */
  predicate KeyAgrees(m: Msg) {
    m.Subscribe? ==>
      var t := GetTopicFromType(m.key);
      t.Some? && (Canonical(m.key) || !WellFormed(t.value))
  }

  /** Every message but an unlucky subscription keeps the agreement; publications never touch it. */
  lemma HandleAgrees(s: Handler, m: Msg, a: Answers)
    requires Agree(s) && Readable(m) && KeyAgrees(m)
    ensures Agree(Handle(s, m, a))
  {
    match m
    case Subscribe(key, who) =>
      if SubscribeTo(s, key, who, a).1 {
        SubscribeAgreesExactly(s, key, who, a);
      } else {
        RefusedTables(s, key, who, a);
        SameTablesAgree(s, SubscribeTo(s, key, who, a).0);
      }
    case Unsubscribe(key, who) => LeaveAgrees(s, key, who);
    case UnsubscribeSdk(fd) => LeaveAllAgrees(s, fd);
    case PublishData(key) => LookupAgrees(s, key);
    case _ => SameTablesAgree(s, Handle(s, m, a));
  }

  /** The empty subscriber set that a publication of data may insert is no subscriber. */
  lemma LookupAgrees(s: Handler, key: string)
    requires Agree(s)
    ensures Agree(Lookup(s, key))
  {
    var r := Lookup(s, key);
    assert forall t :: Flag(r, t) <==> Flag(s, t);
    assert forall k :: Subscribed(r, k) <==> Subscribed(s, k);
  }

  lemma TickAgrees(s: Handler, cycle: nat)
    requires Agree(s)
    ensures Agree(AddTime(Tick(s), cycle))
  {
    SameTablesAgree(s, AddTime(Tick(s), cycle));
  }

  // ---------- Topics open at the plugins ----------

  /** Some topic has this key. */
  ghost predicate IsKey(k: string) {
    exists t: Topic :: GetType(t) == k
  }

  /** The kept keys lead to everything the plugin has open, and a disabled instance has nothing open. */
  ghost predicate Covered(i: Inst) {
    && (forall t :: t in i.atPlugin ==> RoundTrips(t) && GetType(t) in i.open)
    && (!i.enabled ==> i.atPlugin == {})
    && forall k :: k in i.open ==> IsKey(k)
  }

  ghost predicate Cover(s: Handler) {
    && (forall n :: n in s.insts ==> Covered(s.insts[n]))
    && forall t :: Flag(s, t) ==> RoundTrips(t)
  }

  lemma OpenCovered(i: Inst, t: Topic)
    requires Covered(i) && i.enabled && RoundTrips(t)
    ensures Covered(OpenI(i, t))
  {
    assert IsKey(GetType(t));
  }

  /** Disabling closes everything: every open topic is found through its kept key. */
  lemma ShutCovered(i: Inst)
    requires Covered(i)
    ensures Covered(ShutI(i)) && ShutI(i).atPlugin == {}
  {
    forall t | t in i.atPlugin ensures Named(i.open, t) {
      assert GetType(t) in i.open && GetTopicFromType(GetType(t)) == Some(t);
    }
  }

  /** Closing stale topics keeps the keys of all others. */
  lemma PrunedCovered(s: Handler, n: string)
    requires (forall t :: Flag(s, t) ==> RoundTrips(t)) && n in s.insts && Covered(s.insts[n])
    ensures Covered(Pruned(s, n))
  {
    var i, gone := s.insts[n], StaleOf(s, n);
    forall t | t in Pruned(s, n).atPlugin ensures GetType(t) in Pruned(s, n).open {
      if u :| u in gone && GetType(u) == GetType(t) {
        KeysDistinct(u, t);
      }
    }
  }

  lemma RefreshCovers(s: Handler, subs: map<string, set<string>>)
    requires Cover(s)
    ensures Cover(Refresh(s.(subs := subs)))
  {
    var m := s.(subs := subs);
    assert forall t :: Flag(m, t) <==> Flag(s, t);
    forall n | n in s.insts ensures Covered(RefreshI(m, n)) {
      PrunedCovered(m, n);
      ShutCovered(Pruned(m, n));
    }
    forall t | Flag(Refresh(m), t) ensures RoundTrips(t) {
      RefreshFlags(m, t);
    }
  }

  /** One instance's record replaced, the flags as before. */
  lemma InstCovers(s: Handler, n: string, i: Inst)
    requires Cover(s) && Covered(i)
    ensures Cover(s.(insts := s.insts[n := i]))
  {
    assert forall t :: Flag(s.(insts := s.insts[n := i]), t) <==> Flag(s, t);
  }

  lemma DisableCovers(s: Handler, n: string)
    requires Cover(s)
    ensures Cover(Disable(s, n))
    ensures n in s.insts ==> Disable(s, n).insts[n].atPlugin == {}
  {
    if n in s.insts {
      ShutCovered(s.insts[n]);
      InstCovers(s, n, ShutI(s.insts[n]));
    }
  }

  lemma AwakeCovers(s: Handler, n: string)
    requires Cover(s) && n in s.insts
    ensures Cover(Enable(s, n)) && Cover(Awake(s, n)) && Awake(s, n).insts[n].enabled
  {
    InstCovers(s, n, EnableI(s.insts[n], s.time));
  }

  lemma OpenForCovers(s: Handler, t: Topic, a: Answers)
    requires Cover(s) && RoundTrips(t) && t.instanceName in s.insts && s.insts[t.instanceName].enabled
    ensures Cover(OpenFor(s, t, a)) && Cover(Opened(s, t))
  {
    var n := t.instanceName;
    OpenCovered(s.insts[n], t);
    InstCovers(s, n, OpenI(s.insts[n], t));
    DisableCovers(s, n);
    var r := OpenFor(s, t, a);
    forall u | Flag(r, u) ensures RoundTrips(u) {
      assert u == t || Flag(s, u);
    }
  }

  lemma AddReaderCovers(s: Handler, key: string, who: string)
    requires Cover(s)
    ensures Cover(AddReader(s, key, who))
  {
    assert forall t :: Flag(AddReader(s, key, who), t) <==> Flag(s, t);
  }

  /** Messages that open a topic only if it names itself back; a publication without a topic name opens none. */
  predicate NamesItself(m: Msg) {
    match m
    case Subscribe(key, _) => GetTopicFromType(key).Some? && RoundTrips(GetTopicFromType(key).value)
    case Publish(t) => t.topicName == "" || RoundTrips(t)
    case _ => true
  }

  lemma SubscribeCovers(s: Handler, key: string, who: string, a: Answers)
    requires Cover(s) && GetTopicFromType(key).Some? && RoundTrips(GetTopicFromType(key).value)
    ensures Cover(SubscribeTo(s, key, who, a).0)
  {
    var t := GetTopicFromType(key).value;
    if t.instanceName in s.insts {
      AwakeCovers(s, t.instanceName);
      OpenForCovers(Awake(s, t.instanceName), t, a);
      AddReaderCovers(OpenFor(Awake(s, t.instanceName), t, a), key, who);
      hide Cover;
      hide Awake;
      hide OpenFor;
    }
  }

  lemma PublishCovers(s: Handler, t: Topic, a: Answers)
    requires Cover(s) && (t.topicName == "" || RoundTrips(t))
    ensures Cover(PublishTo(s, t, a).0)
  {
    if t.instanceName in s.insts {
      AwakeCovers(s, t.instanceName);
      if t.topicName != "" {
        OpenForCovers(Awake(s, t.instanceName), t, a);
      }
      hide Cover;
      hide Awake;
      hide Opened;
    }
  }

  /** Every message that opens only self-naming topics keeps the cover, whatever the plugins answer. */
  lemma HandleCovers(s: Handler, m: Msg, a: Answers)
    requires Cover(s) && Readable(m) && NamesItself(m)
    ensures Cover(Handle(s, m, a))
  {
    match m
    case Enabled(n) =>
      if n in s.insts {
        AwakeCovers(s, n);
      }
    case Disabled(n) => DisableCovers(s, n);
    case DisabledForce(n) => DisableCovers(s, n);
    case Subscribe(key, who) => SubscribeCovers(s, key, who, a);
    case Unsubscribe(key, who) => RefreshCovers(s, Leave(s.subs, key, who));
    case UnsubscribeSdk(fd) => RefreshCovers(s, LeaveAll(s.subs, fd));
    case Publish(t) => PublishCovers(s, t, a);
    case PublishData(key) =>
      assert forall t :: Flag(Lookup(s, key), t) <==> Flag(s, t);
    case Shutdown =>
  }

  lemma TickCovers(s: Handler, cycle: nat)
    requires Cover(s)
    ensures Cover(AddTime(Tick(s), cycle))
  {
    var r := AddTime(Tick(s), cycle);
    forall n | n in s.insts ensures Covered(TickI(s.insts[n], s.time)) {
      ShutCovered(s.insts[n]);
    }
    assert forall t :: Flag(r, t) <==> Flag(s, t);
  }

  // ---------- Exactly when disabling closes everything ----------

  /** Only a topic that names itself back is named by any key. */
  lemma NamedExactly(i: Inst, t: Topic)
    requires Covered(i)
    ensures Named(i.open + {GetType(t)}, t) <==> RoundTrips(t)
  {
    if Named(i.open + {GetType(t)}, t) {
      var k :| k in i.open + {GetType(t)} && GetTopicFromType(k) == Some(t);
      assert IsKey(k);
      var u: Topic :| GetType(u) == k;
      ParsedIsWellFormed(u, t);
      KeyRoundTrip(t);
    } else {
      assert GetType(t) in i.open + {GetType(t)};
    }
  }

  /** After one more topic has been opened, disabling closes everything exactly when that topic names itself back. */
  lemma OpenThenShut(i: Inst, t: Topic)
    requires Covered(i) && i.enabled
    ensures ShutI(OpenI(i, t)).atPlugin == {} <==> RoundTrips(t)
  {
    NamedExactly(i, t);
    var o := OpenI(i, t);
    if RoundTrips(t) {
      OpenCovered(i, t);
      ShutCovered(o);
    } else {
      assert t in ShutI(o).atPlugin;
    }
  }

  /** An accepted publication followed by a disable leaves nothing open exactly when its topic is well-formed, or none was named. */
  lemma PublishThenDisable(s: Handler, t: Topic, a: Answers)
    requires Cover(s) && PublishTo(s, t, a).1
    ensures var r := Disable(PublishTo(s, t, a).0, t.instanceName);
            r.insts[t.instanceName].atPlugin == {} <==> t.topicName == "" || WellFormed(t)
  {
    var n := t.instanceName;
    AwakeCovers(s, n);
    var i := Awake(s, n).insts[n];
    if t.topicName == "" {
      ShutCovered(i);
    } else {
      OpenThenShut(i, t);
      KeyRoundTrip(t);
    }
  }

  /** ... and so does an accepted subscription, unless the topic's flag was up and nothing had to be opened. */
  lemma SubscribeThenDisable(s: Handler, key: string, who: string, a: Answers)
    requires Cover(s) && GetTopicFromType(key).Some? && SubscribeTo(s, key, who, a).1
    ensures var t := GetTopicFromType(key).value;
            var r := Disable(SubscribeTo(s, key, who, a).0, t.instanceName);
            r.insts[t.instanceName].atPlugin == {} <==> Flag(s, t) || WellFormed(t)
  {
    var t := GetTopicFromType(key).value;
    var n := t.instanceName;
    AwakeCovers(s, n);
    var i := Awake(s, n).insts[n];
    if Flag(s, t) {
      ShutCovered(i);
    } else {
      OpenThenShut(i, t);
      KeyRoundTrip(t);
    }
  }

  /** A topic whose parameters contain the separator is named as one with the parameters cut off. */
  lemma CutParameters()
    ensures var t := Topic("i", "t", "a::b"); !WellFormed(t) && GetTopicFromType(GetType(t)) == Some(Topic("i", "t", "a"))
  {
    var t := Topic("i", "t", "a::b");
    assert t.params[1] == ':' && t.params[2] == ':';
    assert !WellFormed(t);
    TokensOfKey(t);
    assert t.params == "a" + "::" + "b";
    NameIsToken("a", "b");
    PlainIsOneToken("b");
    assert Pieces(t.params) == ["a", "b"];
  }

  /** Such a publication: the topic closed is the one with the parameters cut off. */
  lemma PublishedAndLeftOpen()
    ensures var t := Topic("i", "t", "a::b");
            var i := Inst(Info(10, 0, false, false, false), {"t"}, false, 0, {}, {}, multiset{});
            var s := Handler(map["i" := i], map[], map[], 0);
            var r := Disable(PublishTo(s, t, Answers(true, true)).0, "i");
            && Cover(s) && PublishTo(s, t, Answers(true, true)).1
            && !r.insts["i"].enabled && r.insts["i"].atPlugin == {t}
            && GetTopicFromType(GetType(t)) == Some(Topic("i", "t", "a"))
  {
    var t := Topic("i", "t", "a::b");
    var i := Inst(Info(10, 0, false, false, false), {"t"}, false, 0, {}, {}, multiset{});
    var s := Handler(map["i" := i], map[], map[], 0);
    CutParameters();
    hide GetTopicFromType;
    hide GetType;
    hide WellFormed;
    assert PublishTo(s, t, Answers(true, true)).1;
    PublishThenDisable(s, t, Answers(true, true));
    assert OpenI(EnableI(i, 0), t).atPlugin == {t};
  }
}
