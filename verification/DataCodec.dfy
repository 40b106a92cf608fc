/** The payload formats of data_register.cpp, and the registry that chooses among them. */
module DataCodec {
  import opened Seqs
  import opened TopicKey
  import opened Codec

  // ---------- C strings ----------

  const NUL: char := '\0'

  predicate NoNul(s: string) {
    forall i :: 0 <= i < |s| ==> s[i] != NUL
  }

  /** What a C string holds of a copied text: everything before the first NUL. */
  function Cut(s: string): (r: string)
    ensures NoNul(r) && |r| <= |s|
    ensures NoNul(s) <==> r == s
  {
    if |s| == 0 || s[0] == NUL then ""
    else
      var r := Cut(s[1..]);
      assert NoNul(s) <==> NoNul(s[1..]) by { if NoNul(s[1..]) { assert forall i :: 0 < i < |s| ==> s[i] == s[1..][i - 1]; } }
      [s[0]] + r
  }

  /** Reading a text into a fresh C string. */
  function DecC(b: string): Read<string> {
    match DecStr(b)
    case None => None
    case Some(p) => Some((Cut(p.0), p.1))
  }

  function Prefix(s: string, n: nat): string {
    if |s| <= n then s else s[..n]
  }

  /** Reading a text into a char array with room for n chars and the NUL. */
  function DecArray(n: nat, b: string): Read<string> {
    match DecStr(b)
    case None => None
    case Some(p) => Some((Cut(Prefix(p.0, n)), p.1))
  }

  const NAME: nat := 15
  const TEXT: nat := 31

  function DecName(b: string): Read<string> {
    DecArray(NAME, b)
  }

  function DecText(b: string): Read<string> {
    DecArray(TEXT, b)
  }

  predicate CString(s: string) {
    NoNul(s) && |s| < U64
  }

  /** A text survives the trip through a C string exactly when it has no NUL. */
  lemma CLaw(s: string)
    requires |s| < U64
    ensures Law(EncStr, DecC, s) <==> NoNul(s)
  {
    forall rest ensures DecC(EncStr(s) + rest) == Some((Cut(s), rest)) {
      StrLaw(s, rest);
    }
    if Law(EncStr, DecC, s) {
      assert DecC(EncStr(s) + "") == Some((s, ""));
    }
  }

  /** ... and through a char array exactly when it also fits. */
  lemma ArrayLaw(n: nat, s: string, rest: string)
    requires |s| < U64
    ensures DecArray(n, EncStr(s) + rest) == Some((s, rest)) <==> NoNul(s) && |s| <= n
  {
    StrLaw(s, rest);
  }

  // ---------- Fields one after the other ----------

  lemma Regroup(a: string, b: string, rest: string)
    ensures (a + b) + rest == a + (b + rest)
  {
  }

  // ---------- Threads ----------

  datatype ThreadInfo = ThreadInfo(pid: int, tid: int, name: string)

  function EncThread(d: ThreadInfo): string {
    EncInt(d.pid) + (EncInt(d.tid) + EncStr(d.name))
  }

  function DecThread(b: string): Read<ThreadInfo> {
    var pid :- DecInt(b);
    var tid :- DecInt(pid.1);
    var name :- DecC(tid.1);
    Some((ThreadInfo(pid.0, tid.0, name.0), name.1))
  }

  predicate ValidThread(d: ThreadInfo) {
    IsInt(d.pid) && IsInt(d.tid) && CString(d.name)
  }

  lemma ThreadLaw(d: ThreadInfo, rest: string)
    requires ValidThread(d)
    ensures DecThread(EncThread(d) + rest) == Some((d, rest))
  {
    Regroup(EncInt(d.pid), EncInt(d.tid) + EncStr(d.name), rest);
    Regroup(EncInt(d.tid), EncStr(d.name), rest);
    IntLaw(d.pid, EncInt(d.tid) + EncStr(d.name) + rest);
    IntLaw(d.tid, EncStr(d.name) + rest);
    CLaw(d.name);
    assert Law(EncStr, DecC, d.name);
  }

  // ---------- Kernel settings: a linked list of pairs ----------

  datatype Pair = Pair(key: string, value: string)

  predicate ValidPair(p: Pair) {
    CString(p.key) && CString(p.value)
  }

  function EncPair(p: Pair): string {
    EncStr(p.key) + EncStr(p.value)
  }

  function DecPair(b: string): Read<Pair> {
    var key :- DecC(b);
    var value :- DecC(key.1);
    Some((Pair(key.0, value.0), value.1))
  }

  lemma PairLaw(p: Pair)
    requires ValidPair(p)
    ensures Law(EncPair, DecPair, p)
  {
    CLaw(p.key);
    CLaw(p.value);
    assert Law(EncStr, DecC, p.key) && Law(EncStr, DecC, p.value);
    forall rest ensures DecPair(EncPair(p) + rest) == Some((p, rest)) {
      Regroup(EncStr(p.key), EncStr(p.value), rest);
      hide EncStr;
      hide DecC;
    }
  }

  /** The loops of the source run while a counter is below an int, which may be negative. */
  function Count(n: int): nat {
    if n < 0 then 0 else n
  }

  function EncCounted<T>(enc: T -> string, xs: seq<T>): string {
    EncInt(|xs|) + EncSeq(enc, xs)
  }

  function DecCounted<T>(dec: string -> Read<T>, b: string): Read<seq<T>> {
    var n :- DecInt(b);
    DecSeq(dec, Count(n.0), n.1)
  }

  lemma CountedLaw<T(!new)>(enc: T -> string, dec: string -> Read<T>, xs: seq<T>, rest: string)
    requires IsInt(|xs|) && forall i :: 0 <= i < |xs| ==> Law(enc, dec, xs[i])
    ensures DecCounted(dec, EncCounted(enc, xs) + rest) == Some((xs, rest))
  {
    Regroup(EncInt(|xs|), EncSeq(enc, xs), rest);
    IntLaw(|xs|, EncSeq(enc, xs) + rest);
    SeqLaw(enc, dec, xs, rest);
  }

  /** The stored length, which may be negative, and the pairs of the nodes. */
  datatype KernelData = KernelData(len: int, nodes: seq<Pair>)

  predicate ValidKernel(d: KernelData) {
    IsInt(d.len) && |d.nodes| == Count(d.len) && forall i :: 0 <= i < |d.nodes| ==> ValidPair(d.nodes[i])
  }

  function EncKernel(d: KernelData): string {
    EncInt(d.len) + EncSeq(EncPair, d.nodes)
  }

  function DecKernel(b: string): Read<KernelData> {
    var n :- DecInt(b);
    var nodes :- DecSeq(DecPair, Count(n.0), n.1);
    Some((KernelData(n.0, nodes.0), nodes.1))
  }

  lemma KernelLaw(d: KernelData, rest: string)
    requires ValidKernel(d)
    ensures DecKernel(EncKernel(d) + rest) == Some((d, rest))
  {
    forall i | 0 <= i < |d.nodes| ensures Law(EncPair, DecPair, d.nodes[i]) {
      PairLaw(d.nodes[i]);
    }
    Regroup(EncInt(d.len), EncSeq(EncPair, d.nodes), rest);
    IntLaw(d.len, EncSeq(EncPair, d.nodes) + rest);
    SeqLaw(EncPair, DecPair, d.nodes, rest);
  }

  // ---------- Command output: a table ----------

  const ATTR_MAX_LENGTH: nat := 20

  datatype CommandData = CommandData(attrs: seq<string>, items: seq<seq<string>>)

  predicate CStrings(xs: seq<string>) {
    forall i :: 0 <= i < |xs| ==> CString(xs[i])
  }

  predicate ValidCommand(d: CommandData) {
    && |d.attrs| <= ATTR_MAX_LENGTH && IsInt(|d.items|) && CStrings(d.attrs)
    && forall i :: 0 <= i < |d.items| ==> |d.items[i]| == |d.attrs| && CStrings(d.items[i])
  }

  function EncStrs(xs: seq<string>): string {
    EncSeq(EncStr, xs)
  }

  function DecStrs(n: nat): string -> Read<seq<string>> {
    b => DecSeq(DecC, n, b)
  }

  lemma StrsLaw(xs: seq<string>, rest: string)
    requires CStrings(xs)
    ensures DecSeq(DecC, |xs|, EncStrs(xs) + rest) == Some((xs, rest))
  {
    forall i | 0 <= i < |xs| ensures Law(EncStr, DecC, xs[i]) {
      CLaw(xs[i]);
    }
    SeqLaw(EncStr, DecC, xs, rest);
  }

  function EncTable(d: CommandData): string {
    EncStrs(d.attrs) + EncSeq(EncStrs, d.items)
  }

  function EncCommand(d: CommandData): string {
    EncInt(|d.attrs|) + (EncInt(|d.items|) + EncTable(d))
  }

  function DecCommand(b: string): Read<CommandData> {
    var attrLen :- DecInt(b);
    var itemLen :- DecInt(attrLen.1);
    var attrs :- DecSeq(DecC, Count(attrLen.0), itemLen.1);
    var items :- DecSeq(DecStrs(Count(attrLen.0)), Count(itemLen.0), attrs.1);
    Some((CommandData(attrs.0, items.0), items.1))
  }

  lemma RowsLaw(n: nat, rows: seq<seq<string>>, rest: string)
    requires forall i :: 0 <= i < |rows| ==> |rows[i]| == n && CStrings(rows[i])
    ensures DecSeq(DecStrs(n), |rows|, EncSeq(EncStrs, rows) + rest) == Some((rows, rest))
  {
    forall i | 0 <= i < |rows| ensures Law(EncStrs, DecStrs(n), rows[i]) {
      forall r ensures DecStrs(n)(EncStrs(rows[i]) + r) == Some((rows[i], r)) {
        StrsLaw(rows[i], r);
      }
    }
    SeqLaw(EncStrs, DecStrs(n), rows, rest);
  }

  lemma CommandLaw(d: CommandData, rest: string)
    requires ValidCommand(d)
    ensures DecCommand(EncCommand(d) + rest) == Some((d, rest))
  {
    var items := EncSeq(EncStrs, d.items) + rest;
    Regroup(EncInt(|d.attrs|), EncInt(|d.items|) + EncTable(d), rest);
    Regroup(EncInt(|d.items|), EncTable(d), rest);
    Regroup(EncStrs(d.attrs), EncSeq(EncStrs, d.items), rest);
    IntLaw(|d.attrs|, EncInt(|d.items|) + (EncTable(d) + rest));
    IntLaw(|d.items|, EncTable(d) + rest);
    StrsLaw(d.attrs, items);
    RowsLaw(|d.attrs|, d.items, rest);
  }

  // ---------- The environment: arrays and matrices ----------

  predicate Ints(xs: seq<int>) {
    forall i :: 0 <= i < |xs| ==> IsInt(xs[i])
  }

  lemma IntIsLaw(x: int)
    requires IsInt(x)
    ensures Law(EncInt, DecInt, x)
  {
    forall rest ensures DecInt(EncInt(x) + rest) == Some((x, rest)) {
      IntLaw(x, rest);
    }
  }

  lemma IntsLaw(xs: seq<int>, rest: string)
    requires Ints(xs)
    ensures DecSeq(DecInt, |xs|, EncSeq(EncInt, xs) + rest) == Some((xs, rest))
  {
    forall i | 0 <= i < |xs| ensures Law(EncInt, DecInt, xs[i]) {
      IntIsLaw(xs[i]);
    }
    SeqLaw(EncInt, DecInt, xs, rest);
  }

  function EncInts(xs: seq<int>): string {
    EncSeq(EncInt, xs)
  }

  function DecInts(n: nat): string -> Read<seq<int>> {
    b => DecSeq(DecInt, n, b)
  }

  lemma MatrixLaw(n: nat, rows: seq<seq<int>>, rest: string)
    requires forall i :: 0 <= i < |rows| ==> |rows[i]| == n && Ints(rows[i])
    ensures DecSeq(DecInts(n), |rows|, EncSeq(EncInts, rows) + rest) == Some((rows, rest))
  {
    forall i | 0 <= i < |rows| ensures Law(EncInts, DecInts(n), rows[i]) {
      forall r ensures DecInts(n)(EncInts(rows[i]) + r) == Some((rows[i], r)) {
        IntsLaw(rows[i], r);
      }
    }
    SeqLaw(EncInts, DecInts(n), rows, rest);
  }

  datatype EnvStatic = EnvStatic(numaNum: int, cpuNumConfig: int, pageSize: int, pageMask: nat,
                                 cpu2Node: seq<int>, numaDistance: seq<seq<int>>)

  predicate ValidStatic(d: EnvStatic) {
    && IsInt(d.numaNum) && IsInt(d.cpuNumConfig) && IsInt(d.pageSize) && d.pageMask < U64
    && |d.cpu2Node| == d.cpuNumConfig && Ints(d.cpu2Node) && |d.numaDistance| == d.numaNum
    && forall i :: 0 <= i < |d.numaDistance| ==> |d.numaDistance[i]| == d.numaNum && Ints(d.numaDistance[i])
  }

  function EncStaticArrays(d: EnvStatic): string {
    EncInts(d.cpu2Node) + EncSeq(EncInts, d.numaDistance)
  }

  function EncStatic(d: EnvStatic): string {
    EncInt(d.numaNum) + (EncInt(d.cpuNumConfig) + (EncInt(d.pageSize) + (EncU64(d.pageMask) + EncStaticArrays(d))))
  }

  function DecStatic(b: string): Read<EnvStatic> {
    var numaNum :- DecInt(b);
    var cpuNum :- DecInt(numaNum.1);
    var pageSize :- DecInt(cpuNum.1);
    var pageMask :- DecU64(pageSize.1);
    var cpu2Node :- DecSeq(DecInt, Count(cpuNum.0), pageMask.1);
    var distance :- DecSeq(DecInts(Count(numaNum.0)), Count(numaNum.0), cpu2Node.1);
    Some((EnvStatic(numaNum.0, cpuNum.0, pageSize.0, pageMask.0, cpu2Node.0, distance.0), distance.1))
  }

  lemma StaticLaw(d: EnvStatic, rest: string)
    requires ValidStatic(d)
    ensures DecStatic(EncStatic(d) + rest) == Some((d, rest))
  {
    var arrays := EncStaticArrays(d);
    var s3 := EncU64(d.pageMask) + arrays;
    var s2 := EncInt(d.pageSize) + s3;
    var s1 := EncInt(d.cpuNumConfig) + s2;
    Regroup(EncInt(d.numaNum), s1, rest);
    Regroup(EncInt(d.cpuNumConfig), s2, rest);
    Regroup(EncInt(d.pageSize), s3, rest);
    Regroup(EncU64(d.pageMask), arrays, rest);
    Regroup(EncInts(d.cpu2Node), EncSeq(EncInts, d.numaDistance), rest);
    IntLaw(d.numaNum, s1 + rest);
    IntLaw(d.cpuNumConfig, s2 + rest);
    IntLaw(d.pageSize, s3 + rest);
    U64Law(d.pageMask, arrays + rest);
    IntsLaw(d.cpu2Node, EncSeq(EncInts, d.numaDistance) + rest);
    MatrixLaw(Count(d.numaNum), d.numaDistance, rest);
    hide EncInt;
    hide DecInt;
    hide EncU64;
    hide DecU64;
    hide EncSeq;
    hide DecSeq;
  }

  datatype EnvRealTime = EnvRealTime(dataReady: int, cpuNumConfig: int, cpuNumOnline: int, cpuOnLine: seq<int>)

  predicate ValidRealTime(d: EnvRealTime) {
    IsInt(d.dataReady) && IsInt(d.cpuNumConfig) && IsInt(d.cpuNumOnline) && |d.cpuOnLine| == d.cpuNumConfig && Ints(d.cpuOnLine)
  }

  function EncRealTime(d: EnvRealTime): string {
    EncInt(d.dataReady) + (EncInt(d.cpuNumConfig) + (EncInt(d.cpuNumOnline) + EncInts(d.cpuOnLine)))
  }

  function DecRealTime(b: string): Read<EnvRealTime> {
    var ready :- DecInt(b);
    var config :- DecInt(ready.1);
    var online :- DecInt(config.1);
    var cpus :- DecSeq(DecInt, Count(config.0), online.1);
    Some((EnvRealTime(ready.0, config.0, online.0, cpus.0), cpus.1))
  }

  lemma RealTimeLaw(d: EnvRealTime, rest: string)
    requires ValidRealTime(d)
    ensures DecRealTime(EncRealTime(d) + rest) == Some((d, rest))
  {
    var s2 := EncInt(d.cpuNumOnline) + EncInts(d.cpuOnLine);
    var s1 := EncInt(d.cpuNumConfig) + s2;
    Regroup(EncInt(d.dataReady), s1, rest);
    Regroup(EncInt(d.cpuNumConfig), s2, rest);
    Regroup(EncInt(d.cpuNumOnline), EncInts(d.cpuOnLine), rest);
    IntLaw(d.dataReady, s1 + rest);
    IntLaw(d.cpuNumConfig, s2 + rest);
    IntLaw(d.cpuNumOnline, EncInts(d.cpuOnLine) + rest);
    IntsLaw(d.cpuOnLine, rest);
    hide EncInt;
    hide DecInt;
    hide EncSeq;
    hide DecSeq;
  }

  const CPU_UTIL_TYPE_MAX: nat := 11

  datatype EnvCpuUtil = EnvCpuUtil(dataReady: int, cpuNumConfig: int, times: seq<seq<nat>>)

  predicate Longs(xs: seq<nat>) {
    forall i :: 0 <= i < |xs| ==> xs[i] < U64
  }

  predicate ValidCpuUtil(d: EnvCpuUtil) {
    && IsInt(d.dataReady) && IsInt(d.cpuNumConfig) && IsInt(d.cpuNumConfig + 1) && |d.times| == d.cpuNumConfig + 1
    && forall i :: 0 <= i < |d.times| ==> |d.times[i]| == CPU_UTIL_TYPE_MAX && Longs(d.times[i])
  }

  function EncLongs(xs: seq<nat>): string {
    EncSeq(EncU64, xs)
  }

  function DecLongs(n: nat): string -> Read<seq<nat>> {
    b => DecSeq(DecU64, n, b)
  }

  lemma LongsLaw(xs: seq<nat>, rest: string)
    requires Longs(xs)
    ensures DecSeq(DecU64, |xs|, EncLongs(xs) + rest) == Some((xs, rest))
  {
    forall i | 0 <= i < |xs| ensures Law(EncU64, DecU64, xs[i]) {
      forall r ensures DecU64(EncU64(xs[i]) + r) == Some((xs[i], r)) {
        U64Law(xs[i], r);
      }
    }
    SeqLaw(EncU64, DecU64, xs, rest);
  }

  lemma LongRowsLaw(n: nat, rows: seq<seq<nat>>, rest: string)
    requires forall i :: 0 <= i < |rows| ==> |rows[i]| == n && Longs(rows[i])
    ensures DecSeq(DecLongs(n), |rows|, EncSeq(EncLongs, rows) + rest) == Some((rows, rest))
  {
    forall i | 0 <= i < |rows| ensures Law(EncLongs, DecLongs(n), rows[i]) {
      forall r ensures DecLongs(n)(EncLongs(rows[i]) + r) == Some((rows[i], r)) {
        LongsLaw(rows[i], r);
      }
    }
    SeqLaw(EncLongs, DecLongs(n), rows, rest);
  }

  function EncCpuUtil(d: EnvCpuUtil): string {
    EncInt(d.dataReady) + (EncInt(d.cpuNumConfig) + EncSeq(EncLongs, d.times))
  }

  function DecCpuUtil(b: string): Read<EnvCpuUtil> {
    var ready :- DecInt(b);
    var config :- DecInt(ready.1);
    var times :- DecSeq(DecLongs(CPU_UTIL_TYPE_MAX), Count(config.0 + 1), config.1);
    Some((EnvCpuUtil(ready.0, config.0, times.0), times.1))
  }

  lemma CpuUtilLaw(d: EnvCpuUtil, rest: string)
    requires ValidCpuUtil(d)
    ensures DecCpuUtil(EncCpuUtil(d) + rest) == Some((d, rest))
  {
    var times := EncSeq(EncLongs, d.times);
    Regroup(EncInt(d.dataReady), EncInt(d.cpuNumConfig) + times, rest);
    Regroup(EncInt(d.cpuNumConfig), times, rest);
    IntLaw(d.dataReady, EncInt(d.cpuNumConfig) + times + rest);
    IntLaw(d.cpuNumConfig, times + rest);
    LongRowsLaw(CPU_UTIL_TYPE_MAX, d.times, rest);
    hide EncInt;
    hide DecInt;
    hide EncSeq;
    hide DecSeq;
  }

  // ---------- Analysis results ----------

  datatype DataItem = DataItem(kind: int, metric: string, value: string, extra: string)

  datatype AnalysisResult = AnalysisResult(items: seq<DataItem>, conclusion: string, suggestion: string, opt: string, extra: string)

  predicate ValidItem(d: DataItem) {
    IsInt(d.kind) && CString(d.metric) && CString(d.value) && CString(d.extra)
  }

  predicate ValidAnalysis(d: AnalysisResult) {
    && IsInt(|d.items|) && (forall i :: 0 <= i < |d.items| ==> ValidItem(d.items[i]))
    && CStrings([d.conclusion, d.suggestion, d.opt, d.extra])
  }

  function EncItem(d: DataItem): string {
    EncInt(d.kind) + EncStrs([d.metric, d.value, d.extra])
  }

  function DecItem(b: string): Read<DataItem> {
    var kind :- DecInt(b);
    var texts :- DecSeq(DecC, 3, kind.1);
    if |texts.0| == 3 then Some((DataItem(kind.0, texts.0[0], texts.0[1], texts.0[2]), texts.1)) else None
  }

  lemma ItemLaw(d: DataItem)
    requires ValidItem(d)
    ensures Law(EncItem, DecItem, d)
  {
    var texts := [d.metric, d.value, d.extra];
    forall rest ensures DecItem(EncItem(d) + rest) == Some((d, rest)) {
      Regroup(EncInt(d.kind), EncStrs(texts), rest);
      IntLaw(d.kind, EncStrs(texts) + rest);
      StrsLaw(texts, rest);
      hide EncInt;
      hide DecInt;
      hide EncStrs;
      hide DecSeq;
    }
  }

  function EncAnalysis(d: AnalysisResult): string {
    EncCounted(EncItem, d.items) + EncStrs([d.conclusion, d.suggestion, d.opt, d.extra])
  }

  function DecAnalysis(b: string): Read<AnalysisResult> {
    var items :- DecCounted(DecItem, b);
    var texts :- DecSeq(DecC, 4, items.1);
    if |texts.0| == 4 then Some((AnalysisResult(items.0, texts.0[0], texts.0[1], texts.0[2], texts.0[3]), texts.1)) else None
  }

  lemma AnalysisLaw(d: AnalysisResult, rest: string)
    requires ValidAnalysis(d)
    ensures DecAnalysis(EncAnalysis(d) + rest) == Some((d, rest))
  {
    var texts := [d.conclusion, d.suggestion, d.opt, d.extra];
    Regroup(EncCounted(EncItem, d.items), EncStrs(texts), rest);
    forall i | 0 <= i < |d.items| ensures Law(EncItem, DecItem, d.items[i]) {
      ItemLaw(d.items[i]);
    }
    CountedLaw(EncItem, DecItem, d.items, EncStrs(texts) + rest);
    StrsLaw(texts, rest);
    hide EncCounted;
    hide DecCounted;
    hide EncStrs;
    hide DecSeq;
  }

  // ---------- Network ----------

  datatype NetBase = NetBase(name: string, operstate: int, ifindex: int)

  predicate ValidBase(d: NetBase) {
    NoNul(d.name) && |d.name| <= NAME && IsInt(d.operstate) && IsInt(d.ifindex)
  }

  function EncBase(d: NetBase): string {
    EncStr(d.name) + (EncInt(d.operstate) + EncInt(d.ifindex))
  }

  function DecBase(b: string): Read<NetBase> {
    var name :- DecName(b);
    var state :- DecInt(name.1);
    var index :- DecInt(state.1);
    Some((NetBase(name.0, state.0, index.0), index.1))
  }

  lemma BaseLaw(d: NetBase)
    requires ValidBase(d)
    ensures Law(EncBase, DecBase, d)
  {
    forall rest ensures DecBase(EncBase(d) + rest) == Some((d, rest)) {
      Regroup(EncStr(d.name), EncInt(d.operstate) + EncInt(d.ifindex), rest);
      Regroup(EncInt(d.operstate), EncInt(d.ifindex), rest);
      ArrayLaw(NAME, d.name, EncInt(d.operstate) + EncInt(d.ifindex) + rest);
      IntLaw(d.operstate, EncInt(d.ifindex) + rest);
      IntLaw(d.ifindex, rest);
      hide EncStr;
      hide EncInt;
      hide DecInt;
      hide DecArray;
    }
  }

  datatype NetDriver = NetDriver(name: string, driver: string, version: string, fwVersion: string, busInfo: string)

  predicate Fits(s: string, n: nat) {
    NoNul(s) && |s| <= n
  }

  predicate ValidDriver(d: NetDriver) {
    Fits(d.name, NAME) && Fits(d.driver, TEXT) && Fits(d.version, TEXT) && Fits(d.fwVersion, TEXT) && Fits(d.busInfo, TEXT)
  }

  function EncTexts(d: NetDriver): string {
    EncSeq(EncStr, [d.driver, d.version, d.fwVersion, d.busInfo])
  }

  function EncDriver(d: NetDriver): string {
    EncStr(d.name) + EncTexts(d)
  }

  function DecDriver(b: string): Read<NetDriver> {
    var name :- DecName(b);
    var texts :- DecSeq(DecText, 4, name.1);
    if |texts.0| == 4 then Some((NetDriver(name.0, texts.0[0], texts.0[1], texts.0[2], texts.0[3]), texts.1)) else None
  }

  lemma DriverLaw(d: NetDriver)
    requires ValidDriver(d)
    ensures Law(EncDriver, DecDriver, d)
  {
    var texts := [d.driver, d.version, d.fwVersion, d.busInfo];
    forall i | 0 <= i < 4 ensures Law(EncStr, DecText, texts[i]) {
      forall r ensures DecText(EncStr(texts[i]) + r) == Some((texts[i], r)) {
        ArrayLaw(TEXT, texts[i], r);
      }
    }
    forall rest ensures DecDriver(EncDriver(d) + rest) == Some((d, rest)) {
      Regroup(EncStr(d.name), EncTexts(d), rest);
      ArrayLaw(NAME, d.name, EncTexts(d) + rest);
      SeqLaw(EncStr, DecText, texts, rest);
      hide EncStr;
      hide DecArray;
      hide EncSeq;
      hide DecSeq;
    }
  }

  datatype NetAffinity = NetAffinity(pid1: nat, pid2: nat, level: nat)

  predicate ValidAffinity(d: NetAffinity) {
    d.pid1 < U32 && d.pid2 < U32 && d.level < U64
  }

  function EncAffinity(d: NetAffinity): string {
    EncU32(d.pid1) + (EncU32(d.pid2) + EncU64(d.level))
  }

  function DecAffinity(b: string): Read<NetAffinity> {
    var pid1 :- DecU32(b);
    var pid2 :- DecU32(pid1.1);
    var level :- DecU64(pid2.1);
    Some((NetAffinity(pid1.0, pid2.0, level.0), level.1))
  }

  lemma AffinityLaw(d: NetAffinity)
    requires ValidAffinity(d)
    ensures Law(EncAffinity, DecAffinity, d)
  {
    forall rest ensures DecAffinity(EncAffinity(d) + rest) == Some((d, rest)) {
      Regroup(EncU32(d.pid1), EncU32(d.pid2) + EncU64(d.level), rest);
      Regroup(EncU32(d.pid2), EncU64(d.level), rest);
      U32Law(d.pid1, EncU32(d.pid2) + EncU64(d.level) + rest);
      U32Law(d.pid2, EncU64(d.level) + rest);
      U64Law(d.level, rest);
      hide EncU32;
      hide DecU32;
      hide EncU64;
      hide DecU64;
    }
  }

  datatype NetQueue = NetQueue(pid: nat, tid: nat, ifIndex: int, queueId: int, times: nat, len: nat)

  predicate ValidQueue(d: NetQueue) {
    d.pid < U32 && d.tid < U32 && IsInt(d.ifIndex) && IsInt(d.queueId) && d.times < U32 && d.len < U64
  }

  function EncQueueTail(d: NetQueue): string {
    EncInt(d.queueId) + (EncU32(d.times) + EncU64(d.len))
  }

  function EncQueue(d: NetQueue): string {
    EncU32(d.pid) + (EncU32(d.tid) + (EncInt(d.ifIndex) + EncQueueTail(d)))
  }

  function DecQueue(b: string): Read<NetQueue> {
    var pid :- DecU32(b);
    var tid :- DecU32(pid.1);
    var ifIndex :- DecInt(tid.1);
    var queueId :- DecInt(ifIndex.1);
    var times :- DecU32(queueId.1);
    var len :- DecU64(times.1);
    Some((NetQueue(pid.0, tid.0, ifIndex.0, queueId.0, times.0, len.0), len.1))
  }

  lemma QueueLaw(d: NetQueue)
    requires ValidQueue(d)
    ensures Law(EncQueue, DecQueue, d)
  {
    var s2 := EncInt(d.ifIndex) + EncQueueTail(d);
    var s1 := EncU32(d.tid) + s2;
    var s4 := EncU32(d.times) + EncU64(d.len);
    forall rest ensures DecQueue(EncQueue(d) + rest) == Some((d, rest)) {
      Regroup(EncU32(d.pid), s1, rest);
      Regroup(EncU32(d.tid), s2, rest);
      Regroup(EncInt(d.ifIndex), EncQueueTail(d), rest);
      Regroup(EncInt(d.queueId), s4, rest);
      Regroup(EncU32(d.times), EncU64(d.len), rest);
      U32Law(d.pid, s1 + rest);
      U32Law(d.tid, s2 + rest);
      IntLaw(d.ifIndex, EncQueueTail(d) + rest);
      IntLaw(d.queueId, s4 + rest);
      U32Law(d.times, EncU64(d.len) + rest);
      U64Law(d.len, rest);
      hide EncU32;
      hide DecU32;
      hide EncU64;
      hide DecU64;
      hide EncInt;
      hide DecInt;
    }
  }

  datatype NetThreadQueues = NetThreadQueues(intervalMs: nat, queues: seq<NetQueue>)

  predicate ValidQueues(d: NetThreadQueues) {
    d.intervalMs < U64 && IsInt(|d.queues|) && forall i :: 0 <= i < |d.queues| ==> ValidQueue(d.queues[i])
  }

  function EncQueues(d: NetThreadQueues): string {
    EncU64(d.intervalMs) + EncCounted(EncQueue, d.queues)
  }

  function DecQueues(b: string): Read<NetThreadQueues> {
    var ms :- DecU64(b);
    var queues :- DecCounted(DecQueue, ms.1);
    Some((NetThreadQueues(ms.0, queues.0), queues.1))
  }

  lemma QueuesLaw(d: NetThreadQueues, rest: string)
    requires ValidQueues(d)
    ensures DecQueues(EncQueues(d) + rest) == Some((d, rest))
  {
    Regroup(EncU64(d.intervalMs), EncCounted(EncQueue, d.queues), rest);
    U64Law(d.intervalMs, EncCounted(EncQueue, d.queues) + rest);
    forall i | 0 <= i < |d.queues| ensures Law(EncQueue, DecQueue, d.queues[i]) {
      QueueLaw(d.queues[i]);
    }
    CountedLaw(EncQueue, DecQueue, d.queues, rest);
  }

  // ---------- The registry ----------

  datatype Format = FThread | FKernel | FCommand | FStatic | FRealTime | FCpuUtil | FAnalysis | FBase | FDriver | FAffinity | FLog | FQueues

  datatype Payload =
    | PThread(thread: ThreadInfo)
    | PKernel(kernel: KernelData)
    | PCommand(command: CommandData)
    | PStatic(static_: EnvStatic)
    | PRealTime(realTime: EnvRealTime)
    | PCpuUtil(cpuUtil: EnvCpuUtil)
    | PAnalysis(analysis: AnalysisResult)
    | PBase(base: seq<NetBase>)
    | PDriver(driver: seq<NetDriver>)
    | PAffinity(affinity: seq<NetAffinity>)
    | PLog(log: string)
    | PQueues(queues: NetThreadQueues)

  const ANALYSES: set<string> := {
    "hwprobe_analysis", "smc_d_analysis", "hugepage_analysis", "dynamic_smt_analysis", "xcall_analysis", "net_hirq_analysis",
    "numa_analysis", "microarch_tidnocmp_analysis", "docker_coordination_burst_analysis"}

  /** Register::GetDataSerialize and GetDataDeserialize, which look in the same table. */
  function Registered(name: string): Option<Format> {
    if name in ANALYSES then Some(FAnalysis)
    else if name == "thread_collector" || name == "thread_scenario" then Some(FThread)
    else if name == "kernel_config" then Some(FKernel)
    else if name == "command_collector" then Some(FCommand)
    else if name == "env_info_collector::static" then Some(FStatic)
    else if name == "env_info_collector::realtime" then Some(FRealTime)
    else if name == "env_info_collector::cpu_util" then Some(FCpuUtil)
    else if name == "net_interface_info::base" then Some(FBase)
    else if name == "net_interface_info::driver" then Some(FDriver)
    else if name == "net_interface_info::local_net_affinity" then Some(FAffinity)
    else if name == "net_hard_irq_tune::net_hardirq_tune_debug_info" then Some(FLog)
    else if name == "net_interface_info::net_thread_que_data" then Some(FQueues)
    else None
  }

  /** First instance and topic together, then the instance alone. */
  function FormatOf(t: Topic): Option<Format> {
    var both := Registered(Join([t.instanceName, t.topicName]));
    if both.Some? then both else Registered(t.instanceName)
  }

  predicate Has(f: Format, p: Payload) {
    match f
    case FThread => p.PThread? && ValidThread(p.thread)
    case FKernel => p.PKernel? && ValidKernel(p.kernel)
    case FCommand => p.PCommand? && ValidCommand(p.command)
    case FStatic => p.PStatic? && ValidStatic(p.static_)
    case FRealTime => p.PRealTime? && ValidRealTime(p.realTime)
    case FCpuUtil => p.PCpuUtil? && ValidCpuUtil(p.cpuUtil)
    case FAnalysis => p.PAnalysis? && ValidAnalysis(p.analysis)
    case FBase => p.PBase? && IsInt(|p.base|) && forall i :: 0 <= i < |p.base| ==> ValidBase(p.base[i])
    case FDriver => p.PDriver? && IsInt(|p.driver|) && forall i :: 0 <= i < |p.driver| ==> ValidDriver(p.driver[i])
    case FAffinity => p.PAffinity? && IsInt(|p.affinity|) && forall i :: 0 <= i < |p.affinity| ==> ValidAffinity(p.affinity[i])
    case FLog => p.PLog? && CString(p.log)
    case FQueues => p.PQueues? && ValidQueues(p.queues)
  }

  function EncPayload(p: Payload): string {
    match p
    case PThread(d) => EncThread(d)
    case PKernel(d) => EncKernel(d)
    case PCommand(d) => EncCommand(d)
    case PStatic(d) => EncStatic(d)
    case PRealTime(d) => EncRealTime(d)
    case PCpuUtil(d) => EncCpuUtil(d)
    case PAnalysis(d) => EncAnalysis(d)
    case PBase(d) => EncCounted(EncBase, d)
    case PDriver(d) => EncCounted(EncDriver, d)
    case PAffinity(d) => EncCounted(EncAffinity, d)
    case PLog(d) => EncStr(d)
    case PQueues(d) => EncQueues(d)
  }

  function Wrap<A, B>(r: Read<A>, f: A -> B): Read<B> {
    match r
    case None => None
    case Some(p) => Some((f(p.0), p.1))
  }

  function DecPayload(f: Format, b: string): Read<Payload> {
    match f
    case FThread => Wrap(DecThread(b), d => PThread(d))
    case FKernel => Wrap(DecKernel(b), d => PKernel(d))
    case FCommand => Wrap(DecCommand(b), d => PCommand(d))
    case FStatic => Wrap(DecStatic(b), d => PStatic(d))
    case FRealTime => Wrap(DecRealTime(b), d => PRealTime(d))
    case FCpuUtil => Wrap(DecCpuUtil(b), d => PCpuUtil(d))
    case FAnalysis => Wrap(DecAnalysis(b), d => PAnalysis(d))
    case FBase => Wrap(DecCounted(DecBase, b), d => PBase(d))
    case FDriver => Wrap(DecCounted(DecDriver, b), d => PDriver(d))
    case FAffinity => Wrap(DecCounted(DecAffinity, b), d => PAffinity(d))
    case FLog => Wrap(DecC(b), d => PLog(d))
    case FQueues => Wrap(DecQueues(b), d => PQueues(d))
  }

  lemma BaseListLaw(d: seq<NetBase>, rest: string)
    requires IsInt(|d|) && forall i :: 0 <= i < |d| ==> ValidBase(d[i])
    ensures DecCounted(DecBase, EncCounted(EncBase, d) + rest) == Some((d, rest))
  {
    forall i | 0 <= i < |d| ensures Law(EncBase, DecBase, d[i]) {
      BaseLaw(d[i]);
    }
    CountedLaw(EncBase, DecBase, d, rest);
  }

  lemma DriverListLaw(d: seq<NetDriver>, rest: string)
    requires IsInt(|d|) && forall i :: 0 <= i < |d| ==> ValidDriver(d[i])
    ensures DecCounted(DecDriver, EncCounted(EncDriver, d) + rest) == Some((d, rest))
  {
    forall i | 0 <= i < |d| ensures Law(EncDriver, DecDriver, d[i]) {
      DriverLaw(d[i]);
    }
    CountedLaw(EncDriver, DecDriver, d, rest);
  }

  lemma AffinityListLaw(d: seq<NetAffinity>, rest: string)
    requires IsInt(|d|) && forall i :: 0 <= i < |d| ==> ValidAffinity(d[i])
    ensures DecCounted(DecAffinity, EncCounted(EncAffinity, d) + rest) == Some((d, rest))
  {
    forall i | 0 <= i < |d| ensures Law(EncAffinity, DecAffinity, d[i]) {
      AffinityLaw(d[i]);
    }
    CountedLaw(EncAffinity, DecAffinity, d, rest);
  }

  /** Every payload of a registered format is read back as it was written. */
  lemma PayloadLaw(f: Format, p: Payload, rest: string)
    requires Has(f, p)
    ensures DecPayload(f, EncPayload(p) + rest) == Some((p, rest))
  {
    match p
    case PThread(d) => ThreadLaw(d, rest);
    case PKernel(d) => KernelLaw(d, rest);
    case PCommand(d) => CommandLaw(d, rest);
    case PStatic(d) => StaticLaw(d, rest);
    case PRealTime(d) => RealTimeLaw(d, rest);
    case PCpuUtil(d) => CpuUtilLaw(d, rest);
    case PAnalysis(d) => AnalysisLaw(d, rest);
    case PBase(d) => BaseListLaw(d, rest);
    case PDriver(d) => DriverListLaw(d, rest);
    case PAffinity(d) => AffinityListLaw(d, rest);
    case PLog(d) =>
      CLaw(d);
      assert Law(EncStr, DecC, d);
    case PQueues(d) => QueuesLaw(d, rest);
  }

  // ---------- Data lists ----------

  datatype DataList = DataList(topic: Topic, data: seq<Payload>)

  predicate CTopic(t: Topic) {
    CString(t.instanceName) && CString(t.topicName) && CString(t.params)
  }

  /** A list whose payloads have the format registered for its topic. */
  predicate ValidList(d: DataList) {
    && CTopic(d.topic) && |d.data| < U64
    && forall i :: 0 <= i < |d.data| ==> FormatOf(d.topic).Some? && Has(FormatOf(d.topic).value, d.data[i])
  }

  function EncDataList(d: DataList): string {
    EncTopic(d.topic) + EncVector(EncPayload, d.data)
  }

  function DecCTopic(b: string): Read<Topic> {
    var t :- DecTopic(b);
    Some((Topic(Cut(t.0.instanceName), Cut(t.0.topicName), Cut(t.0.params)), t.1))
  }

  function DecAs(f: Format): string -> Read<Payload> {
    b => DecPayload(f, b)
  }

  /** Without a registered format only an empty list can be read. */
  function DecDataList(b: string): Read<DataList> {
    var t :- DecCTopic(b);
    if FormatOf(t.0).None? then
      var n :- DecU64(t.1);
      if n.0 == 0 then Some((DataList(t.0, []), n.1)) else None
    else
      var data :- DecVector(DecAs(FormatOf(t.0).value), t.1);
      Some((DataList(t.0, data.0), data.1))
  }

  /** A data list is read back as it was written, by the registry entry that wrote it, up to exactly what follows. */
  lemma DataListLaw(d: DataList, rest: string)
    requires ValidList(d)
    ensures DecDataList(EncDataList(d) + rest) == Some((d, rest))
  {
    Regroup(EncTopic(d.topic), EncVector(EncPayload, d.data), rest);
    TopicLaw(d.topic, EncVector(EncPayload, d.data) + rest);
    if FormatOf(d.topic).Some? {
      var f := FormatOf(d.topic).value;
      forall i | 0 <= i < |d.data| ensures Law(EncPayload, DecAs(f), d.data[i]) {
        forall r ensures DecAs(f)(EncPayload(d.data[i]) + r) == Some((d.data[i], r)) {
          PayloadLaw(f, d.data[i], r);
        }
      }
      VectorLaw(EncPayload, DecAs(f), d.data, rest);
    } else {
      assert d.data == [] && EncVector(EncPayload, d.data) == EncU64(0);
      U64Law(0, rest);
    }
    hide FormatOf;
    hide EncTopic;
    hide DecTopic;
    hide EncVector;
    hide DecVector;
  }
}
