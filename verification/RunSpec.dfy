/**
 * The instance run handler on values (instance_run_handler.cpp, plugin.cpp). Every operation is a
 * function of the state and of what the plugins answered; what they post is added to the queue separately.
 */
module RunSpec {
  import opened Seqs
  import opened TopicKey

  /** The fixed properties of an instance. */
  datatype Info = Info(period: nat, priority: int, scenario: bool, tune: bool, runOnce: bool) {
    /** How long after being enabled the instance first runs. */
    function Delay(): nat {
      if scenario then period else if tune then 2 * period else 0
    }
  }

  /**
   * An instance: `open` is the set of keys kept in openTopics, `atPlugin` the topics open at the plugin
   * itself, and `pending` the times of its entries in the schedule queue.
   */
  datatype Inst = Inst(
    info: Info,
    supports: set<string>,
    enabled: bool,
    enableCnt: nat,
    open: set<string>,
    atPlugin: set<Topic>,
    pending: multiset<nat>)

  datatype Handler = Handler(insts: map<string, Inst>, flags: map<Topic, bool>, subs: map<string, set<string>>, time: nat)

  datatype Msg =
    | Enabled(name: string)
    | Disabled(name: string)
    | DisabledForce(name: string)
    | Subscribe(key: string, who: string)
    | Unsubscribe(key: string, who: string)
    | UnsubscribeSdk(fd: string)
    | Publish(topic: Topic)
    | PublishData(key: string)
    | Shutdown

  /** What a plugin answers while one message is handled. */
  datatype Answers = Answers(enableOk: bool, openOk: bool)

  // ---------- One instance ----------

  function EnableI(i: Inst, now: nat): Inst {
    i.(enabled := true, enableCnt := i.enableCnt + 1, pending := i.pending + multiset{now + i.info.Delay()})
  }

  /** Instance::OpenTopic, when the plugin agrees. */
  function OpenI(i: Inst, t: Topic): Inst {
    i.(open := i.open + {GetType(t)}, atPlugin := i.atPlugin + {t})
  }

  /** Instance::CloseTopic. */
  function CloseI(i: Inst, t: Topic): Inst {
    i.(open := i.open - {GetType(t)}, atPlugin := i.atPlugin - {t})
  }

  /** One of the kept keys leads back to the topic. */
  predicate Named(open: set<string>, t: Topic) {
    exists k :: k in open && GetTopicFromType(k) == Some(t)
  }

  /** Disabling: the plugin is asked to close the topic of every kept key; the keys themselves stay. */
  ghost function ShutI(i: Inst): Inst {
    i.(enabled := false, atPlugin := set t | t in i.atPlugin && !Named(i.open, t))
  }

  // ---------- Enabling and disabling ----------

  function Enable(s: Handler, n: string): Handler
    requires n in s.insts
  {
    s.(insts := s.insts[n := EnableI(s.insts[n], s.time)])
  }

  ghost function Disable(s: Handler, n: string): Handler {
    if n in s.insts then s.(insts := s.insts[n := ShutI(s.insts[n])]) else s
  }

  /** EnableInstance, which does not ask whether the instance is enabled already. */
  function EnableInstance(s: Handler, n: string, a: Answers): Handler {
    if n in s.insts && a.enableOk then Enable(s, n) else s
  }

  /** A subscription or publication enables the instance unless it is enabled already. */
  function Awake(s: Handler, n: string): Handler
    requires n in s.insts
  {
    if s.insts[n].enabled then s else Enable(s, n)
  }

  function Opened(s: Handler, t: Topic): Handler
    requires t.instanceName in s.insts
  {
    s.(insts := s.insts[t.instanceName := OpenI(s.insts[t.instanceName], t)])
  }

  // ---------- Subscriptions ----------

  predicate Flag(s: Handler, t: Topic) {
    t in s.flags && s.flags[t]
  }

  function Readers(s: Handler, key: string): set<string> {
    if key in s.subs then s.subs[key] else {}
  }

  function AddReader(s: Handler, key: string, who: string): Handler {
    s.(subs := s.subs[key := Readers(s, key) + {who}])
  }

  /** Opening the topic of a new subscription: a refusal disables the instance and leaves a lowered flag behind. */
  ghost function OpenFor(s: Handler, t: Topic, a: Answers): Handler
    requires t.instanceName in s.insts
  {
    var n := t.instanceName;
    if Flag(s, t) then s
    else if a.openOk then Opened(s, t).(flags := s.flags[t := true])
    else Disable(s, n).(flags := s.flags[t := false])
  }

  /** InstanceRunHandler::Subscribe and its result. */
  ghost function SubscribeTo(s: Handler, key: string, who: string, a: Answers): (Handler, bool)
    requires GetTopicFromType(key).Some?
  {
    var t := GetTopicFromType(key).value;
    var n := t.instanceName;
    if n !in s.insts || (!s.insts[n].enabled && !a.enableOk) then (s, false)
    else
      var r := OpenFor(Awake(s, n), t, a);
      if Flag(r, t) then (AddReader(r, key, who), true) else (r, false)
  }

  /** A topic marked open that nobody subscribes to any more. */
  predicate Stale(s: Handler, t: Topic) {
    Flag(s, t) && GetType(t) !in s.subs
  }

  ghost predicate Known(s: Handler, n: string) {
    exists t :: t in s.flags && t.instanceName == n
  }

  /** The instance has a topic that is marked open and has an entry in the subscriber table. */
  ghost predicate Live(s: Handler, n: string) {
    exists t :: Flag(s, t) && t.instanceName == n && GetType(t) in s.subs
  }

  ghost predicate Idle(s: Handler, n: string)
    requires n in s.insts
  {
    s.insts[n].enabled && Known(s, n) && !Live(s, n)
  }

  ghost function StaleOf(s: Handler, n: string): set<Topic> {
    set t | t in s.flags && Stale(s, t) && t.instanceName == n
  }

  /** The stale topics of instance n closed. */
  ghost function Pruned(s: Handler, n: string): Inst
    requires n in s.insts
  {
    var i, gone := s.insts[n], StaleOf(s, n);
    i.(open := i.open - set t | t in gone :: GetType(t), atPlugin := i.atPlugin - gone)
  }

  ghost function RefreshI(s: Handler, n: string): Inst
    requires n in s.insts
  {
    if Idle(s, n) then ShutI(Pruned(s, n)) else Pruned(s, n)
  }

  /** UpdateInstance. */
  ghost function Refresh(s: Handler): Handler {
    s.(insts := map n | n in s.insts :: RefreshI(s, n), flags := map t | t in s.flags :: s.flags[t] && GetType(t) in s.subs)
  }

  /** The subscriber table after `who` leaves the topic. */
  function Leave(subs: map<string, set<string>>, key: string, who: string): map<string, set<string>> {
    var rest := (if key in subs then subs[key] else {}) - {who};
    if rest == {} then subs - {key} else subs[key := rest]
  }

  ghost function UnsubscribeFrom(s: Handler, key: string, who: string): Handler {
    Refresh(s.(subs := Leave(s.subs, key, who)))
  }

  /** The subscriber table after `fd` leaves every topic. */
  ghost function LeaveAll(subs: map<string, set<string>>, fd: string): map<string, set<string>> {
    map k | k in subs && subs[k] != {fd} :: subs[k] - {fd}
  }

  ghost predicate Reads(subs: map<string, set<string>>, fd: string) {
    exists k :: k in subs && fd in subs[k]
  }

  /** UnsubscribeSdk: instances are looked at only if the client had a subscription. */
  ghost function UnsubscribeAll(s: Handler, fd: string): Handler {
    if Reads(s.subs, fd) then Refresh(s.(subs := LeaveAll(s.subs, fd))) else s
  }

  // ---------- Publishing ----------

  /** InstanceRunHandler::Publish and its result: an opened topic is not marked in the flags. */
  function PublishTo(s: Handler, t: Topic, a: Answers): (Handler, bool) {
    var n := t.instanceName;
    if n !in s.insts || (t.topicName != "" && t.topicName !in s.insts[n].supports) then (s, false)
    else if !s.insts[n].enabled && !a.enableOk then (s, false)
    else
      if t.topicName == "" then (Awake(s, n), true)
      else if a.openOk then (Opened(Awake(s, n), t), true)
      else (Awake(s, n), false)
  }

  /** Looking up the subscribers of a topic adds an empty set when there is none. */
  function Lookup(s: Handler, key: string): Handler {
    if key in s.subs then s else s.(subs := s.subs[key := {}])
  }

  // ---------- Messages ----------

  /** Messages the handler can read: their keys have an instance and a topic name. */
  predicate Readable(m: Msg) {
    m.Subscribe? || m.Unsubscribe? ==> GetTopicFromType(m.key).Some?
  }

  /** The state change of one message. */
  ghost function Handle(s: Handler, m: Msg, a: Answers): Handler
    requires Readable(m)
  {
    match m
    case Enabled(n) => EnableInstance(s, n, a)
    case Disabled(n) => Disable(s, n)
    case DisabledForce(n) => Disable(s, n)
    case Subscribe(key, who) => SubscribeTo(s, key, who, a).0
    case Unsubscribe(key, who) => UnsubscribeFrom(s, key, who)
    case UnsubscribeSdk(fd) => UnsubscribeAll(s, fd)
    case Publish(t) => PublishTo(s, t, a).0
    case PublishData(key) => Lookup(s, key)
    case Shutdown => s
  }

  // ---------- The schedule ----------

  /** Some entry's time has passed: it is at the top of the queue for good. */
  ghost predicate Overdue(s: Handler) {
    exists n, x :: n in s.insts && x in s.insts[n].pending && x < s.time
  }

  /** What one call of Schedule does to an instance, when nothing is overdue. */
  ghost function TickI(i: Inst, now: nat): Inst {
    var due := i.pending[now];
    if due == 0 then i
    else if !i.enabled then i.(pending := i.pending[now := 0])
    else if i.info.runOnce then ShutI(i).(pending := i.pending[now := 0])
    else
      var next := now + i.info.period;
      i.(pending := i.pending[now := 0][next := i.pending[now := 0][next] + due])
  }

  /** How often the instance runs in one call of Schedule. */
  function RunsI(i: Inst, now: nat): nat {
    if !i.enabled then 0
    else if i.info.runOnce && i.pending[now] > 0 then 1
    else i.pending[now]
  }

  /** The queue can be worked off: nothing due comes back due. */
  ghost predicate Periodic(s: Handler) {
    forall n :: n in s.insts ==> s.insts[n].info.runOnce || s.insts[n].info.period > 0
  }

  /** Schedule. */
  ghost function Tick(s: Handler): Handler {
    if Overdue(s) then s else s.(insts := map n | n in s.insts :: TickI(s.insts[n], s.time))
  }

  ghost function Runs(s: Handler, n: string): nat {
    if Overdue(s) || n !in s.insts then 0 else RunsI(s.insts[n], s.time)
  }

  function AddTime(s: Handler, cycle: nat): Handler {
    s.(time := s.time + cycle)
  }
}
