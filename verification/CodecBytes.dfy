/** The formats byte by byte: numbers for all values, and one written value of every format. */
module CodecBytes {
  import opened Seqs
  import opened Topologies
  import opened TopicKey
  import opened Codec
  import opened DataCodec
  import opened Frames

  // ---------- Numbers and texts ----------

  /** Byte k of a number is its k-th digit to the base 256. */
  lemma {:induction false} NatBytes(x: nat, n: nat, k: nat)
    requires k < n
    ensures EncNat(x, n)[k] as int == (x / Pow256(k)) % 256
    decreases n
  {
    if k > 0 {
      NatBytes(x / 256, n - 1, k - 1);
      assert EncNat(x, n)[k] == EncNat(x / 256, n - 1)[k - 1];
      DivTwice(x, Pow256(k - 1));
    } else {
      assert Pow256(0) == 1;
    }
  }

  lemma DivTwice(x: nat, p: nat)
    requires p > 0
    ensures x / 256 / p == x / (256 * p)
  {
    var q, a := x / 256 / p, x / 256;
    var r, s := a - q * p, x - a * 256;
    assert a == q * p + r && 0 <= r < p;
    assert x == q * (256 * p) + (256 * r + s);
    QuotientIs(x, 256 * p, q, 256 * r + s);
  }

  lemma QuotientIs(x: nat, d: nat, q: nat, r: nat)
    requires d > 0 && x == q * d + r && r < d
    ensures x / d == q
  {
    var p := x / d;
    EuclidFact(x, d);
    assert (p + 1) * d == p * d + d && (q + 1) * d == q * d + d;
    if p < q {
      MulLe(p + 1, q, d);
    } else if p > q {
      MulLe(q + 1, p, d);
    }
  }

  /** A small number in four bytes, and in eight. */
  function Four(n: nat): string
    requires n < 256
  {
    [n as char, '\0', '\0', '\0']
  }

  function Eight(n: nat): string
    requires n < 256
  {
    [n as char, '\0', '\0', '\0', '\0', '\0', '\0', '\0']
  }

  lemma SmallNumbers(n: nat)
    requires n < 256
    ensures EncU32(n) == EncInt(n) == Four(n) && EncU64(n) == Eight(n)
  {
    assert EncNat(0, 0) == "" && EncNat(0, 1) == "\0" && EncNat(0, 2) == "\0\0" && EncNat(0, 3) == "\0\0\0";
    assert EncNat(0, 4) == "\0\0\0\0" && EncNat(0, 5) == "\0\0\0\0\0" && EncNat(0, 6) == "\0\0\0\0\0\0" && EncNat(0, 7) == "\0\0\0\0\0\0\0";
  }

  /** Negative numbers are in two's complement. */
  lemma MinusOne()
    ensures EncInt(-1) == [255 as char, 255 as char, 255 as char, 255 as char]
  {
    assert EncNat(255, 1) == [255 as char] && EncNat(0xffff, 2) == [255 as char, 255 as char];
    assert EncNat(0xff_ffff, 3) == [255 as char, 255 as char, 255 as char];
  }

  /** A text is its length in eight bytes, and its bytes. */
  lemma TextBytes(s: string)
    ensures EncStr(s)[8..] == s && |EncStr(s)| == 8 + |s|
    ensures |s| < 256 ==> EncStr(s) == Eight(|s|) + s
    ensures forall k :: 0 <= k < 8 ==> EncStr(s)[k] as int == (|s| / Pow256(k)) % 256
  {
    if |s| < 256 {
      SmallNumbers(|s|);
    }
    forall k | 0 <= k < 8 ensures EncStr(s)[k] as int == (|s| / Pow256(k)) % 256 {
      NatBytes(|s|, 8, k);
    }
  }

  lemma ListBytes<T>(enc: T -> string, x: T, y: T)
    ensures EncSeq(enc, []) == "" && EncSeq(enc, [x]) == enc(x) && EncSeq(enc, [x, y]) == enc(x) + enc(y)
  {
    assert Init([x]) == [] && Init([x, y]) == [x];
    assert EncSeq(enc, [x]) == "" + enc(x);
  }

  // ---------- Messages and frames ----------

  lemma MessageBytes()
    ensures EncMessage(Message(3, ["ab", ""])) == Four(3) + (Eight(2) + (Eight(2) + "ab" + Eight(0)))
  {
    SmallNumbers(3);
    SmallNumbers(2);
    TextBytes("ab");
    TextBytes("");
    assert Eight(0) + "" == Eight(0);
    ListBytes(EncStr, "ab", "");
    hide EncStr;
    hide EncInt;
    hide EncU64;
  }

  lemma TopicBytes()
    ensures EncTopic(Topic("i", "tt", "ppp")) == Eight(1) + "i" + (Eight(2) + "tt") + (Eight(3) + "ppp")
  {
    TextBytes("i");
    TextBytes("tt");
    TextBytes("ppp");
    hide EncStr;
  }

  lemma ResultBytes()
    ensures EncResult(Result(7, "no")) == Four(7) + (Eight(2) + "no")
  {
    SmallNumbers(7);
    TextBytes("no");
    hide EncStr;
    hide EncInt;
  }

  /** Total length, header length, header, message. */
  lemma FrameBytes()
    ensures Frame(7, Message(3, [])) == Eight(32) + Eight(4) + (Four(7) + (Four(3) + Eight(0)))
  {
    SmallNumbers(7);
    SmallNumbers(3);
    SmallNumbers(0);
    SmallNumbers(4);
    SmallNumbers(32);
    assert EncSeq(EncStr, []) == "" && Eight(0) + "" == Eight(0);
    hide EncInt;
    hide EncU64;
    hide EncStr;
  }

  // ---------- Payloads ----------

  lemma ThreadBytes()
    ensures EncThread(ThreadInfo(1, 2, "n")) == Four(1) + (Four(2) + (Eight(1) + "n"))
  {
    SmallNumbers(1);
    SmallNumbers(2);
    TextBytes("n");
    hide EncStr;
    hide EncInt;
  }

  lemma KernelBytes()
    ensures EncKernel(KernelData(2, [Pair("k", "v"), Pair("l", "w")])) ==
              Four(2) + (Eight(1) + "k" + (Eight(1) + "v") + (Eight(1) + "l" + (Eight(1) + "w")))
  {
    SmallNumbers(2);
    TextBytes("k");
    TextBytes("v");
    TextBytes("l");
    TextBytes("w");
    ListBytes(EncPair, Pair("k", "v"), Pair("l", "w"));
    hide EncStr;
    hide EncInt;
  }

  lemma CommandBytes()
    ensures EncCommand(CommandData(["a", "b"], [["c", "d"]])) ==
              Four(2) + (Four(1) + (Eight(1) + "a" + (Eight(1) + "b") + (Eight(1) + "c" + (Eight(1) + "d"))))
  {
    SmallNumbers(2);
    SmallNumbers(1);
    TextBytes("a");
    TextBytes("b");
    TextBytes("c");
    TextBytes("d");
    ListBytes(EncStr, "a", "b");
    ListBytes(EncStr, "c", "d");
    ListBytes(EncStrs, ["c", "d"], []);
    hide EncStr;
    hide EncInt;
  }

  lemma StaticBytes()
    ensures EncStatic(EnvStatic(1, 2, 3, 4, [5, 6], [[7]])) ==
              Four(1) + (Four(2) + (Four(3) + (Eight(4) + (Four(5) + Four(6) + Four(7)))))
  {
    SmallNumbers(1);
    SmallNumbers(2);
    SmallNumbers(3);
    SmallNumbers(4);
    SmallNumbers(5);
    SmallNumbers(6);
    SmallNumbers(7);
    ListBytes(EncInt, 5, 6);
    ListBytes(EncInt, 7, 7);
    ListBytes(EncInts, [7], []);
    hide EncInt;
    hide EncU64;
  }

  lemma RealTimeBytes()
    ensures EncRealTime(EnvRealTime(1, 2, 3, [4, 5])) == Four(1) + (Four(2) + (Four(3) + (Four(4) + Four(5))))
  {
    SmallNumbers(1);
    SmallNumbers(2);
    SmallNumbers(3);
    SmallNumbers(4);
    SmallNumbers(5);
    ListBytes(EncInt, 4, 5);
    hide EncInt;
  }

  /** Two rows of times, here cut to two columns each. */
  lemma CpuUtilBytes()
    ensures EncCpuUtil(EnvCpuUtil(1, 2, [[3, 4], [5, 6]])) == Four(1) + (Four(2) + (Eight(3) + Eight(4) + (Eight(5) + Eight(6))))
  {
    SmallNumbers(1);
    SmallNumbers(2);
    SmallNumbers(3);
    SmallNumbers(4);
    SmallNumbers(5);
    SmallNumbers(6);
    ListBytes(EncU64, 3, 4);
    ListBytes(EncU64, 5, 6);
    ListBytes(EncLongs, [3, 4], [5, 6]);
    hide EncInt;
    hide EncU64;
  }

  /** Three texts one after the other, and four. */
  lemma TextsBytes(a: string, b: string, c: string, d: string)
    ensures EncSeq(EncStr, [a, b, c]) == EncStr(a) + EncStr(b) + EncStr(c)
    ensures EncSeq(EncStr, [a, b, c, d]) == EncStr(a) + EncStr(b) + EncStr(c) + EncStr(d)
  {
    ListBytes(EncStr, a, b);
    assert Init([a, b, c]) == [a, b] && Init([a, b, c, d]) == [a, b, c];
    hide EncStr;
  }

  lemma AnalysisBytes()
    ensures EncAnalysis(AnalysisResult([DataItem(9, "m", "v", "e")], "c", "s", "o", "x")) ==
              Four(1) + (Four(9) + (Eight(1) + "m" + (Eight(1) + "v") + (Eight(1) + "e"))) +
              (Eight(1) + "c" + (Eight(1) + "s") + (Eight(1) + "o") + (Eight(1) + "x"))
  {
    var item := DataItem(9, "m", "v", "e");
    SmallNumbers(1);
    SmallNumbers(9);
    TextsBytes("m", "v", "e", "");
    TextsBytes("c", "s", "o", "x");
    ListBytes(EncItem, item, item);
    TextBytes("m");
    TextBytes("v");
    TextBytes("e");
    TextBytes("c");
    TextBytes("s");
    TextBytes("o");
    TextBytes("x");
    hide EncStr;
    hide EncInt;
  }

  lemma NetBytes()
    ensures EncBase(NetBase("n", 1, 2)) == Eight(1) + "n" + (Four(1) + Four(2))
    ensures EncDriver(NetDriver("n", "d", "v", "f", "b")) ==
              Eight(1) + "n" + (Eight(1) + "d" + (Eight(1) + "v") + (Eight(1) + "f") + (Eight(1) + "b"))
    ensures EncAffinity(NetAffinity(1, 2, 3)) == Four(1) + (Four(2) + Eight(3))
    ensures EncQueues(NetThreadQueues(9, [NetQueue(1, 2, 3, 4, 5, 6)])) ==
              Eight(9) + (Four(1) + (Four(1) + (Four(2) + (Four(3) + (Four(4) + (Four(5) + Eight(6)))))))
  {
    SmallNumbers(1);
    SmallNumbers(2);
    SmallNumbers(3);
    SmallNumbers(4);
    SmallNumbers(5);
    SmallNumbers(6);
    SmallNumbers(9);
    TextsBytes("d", "v", "f", "b");
    TextBytes("n");
    TextBytes("d");
    TextBytes("v");
    TextBytes("f");
    TextBytes("b");
    var q := NetQueue(1, 2, 3, 4, 5, 6);
    ListBytes(EncQueue, q, q);
    hide EncStr;
    hide EncInt;
    hide EncU32;
    hide EncU64;
  }

  // ---------- Data lists ----------

  /** A data list: its topic, the number of payloads, and the payloads. */
  lemma DataListBytes()
    ensures EncDataList(DataList(Topic("i", "t", ""), [PLog("a"), PLog("b")])) ==
              Eight(1) + "i" + (Eight(1) + "t") + Eight(0) + (Eight(2) + (Eight(1) + "a" + (Eight(1) + "b")))
  {
    SmallNumbers(2);
    TextBytes("i");
    TextBytes("t");
    TextBytes("");
    TextBytes("a");
    TextBytes("b");
    assert Eight(0) + "" == Eight(0);
    ListBytes(EncPayload, PLog("a"), PLog("b"));
    hide EncStr;
    hide EncU64;
  }

  /** A format is looked up under instance and topic first, then under the instance alone. */
  lemma FormatLookup(t: Topic)
    ensures var name := t.instanceName + "::" + t.topicName;
            FormatOf(t) == if Registered(name).Some? then Registered(name) else Registered(t.instanceName)
  {
    var parts := [t.instanceName, t.topicName];
    assert Init(parts) == [t.instanceName] && Join([t.instanceName]) == t.instanceName;
    assert Join(parts) == t.instanceName + "::" + t.topicName;
    hide Registered;
  }

  lemma RegisteredNetNames()
    ensures Registered("net_interface_info::base") == Some(FBase) && Registered("net_interface_info::driver") == Some(FDriver)
    ensures Registered("net_interface_info::local_net_affinity") == Some(FAffinity)
    ensures Registered("net_interface_info::net_thread_que_data") == Some(FQueues)
    ensures Registered("net_hard_irq_tune::net_hardirq_tune_debug_info") == Some(FLog)
  {
  }

  lemma RegisteredNames()
    ensures Registered("env_info_collector::static") == Some(FStatic) && Registered("env_info_collector::realtime") == Some(FRealTime)
    ensures Registered("env_info_collector::cpu_util") == Some(FCpuUtil)
    ensures Registered("thread_collector") == Registered("thread_scenario") == Some(FThread)
    ensures Registered("kernel_config") == Some(FKernel) && Registered("command_collector") == Some(FCommand)
    ensures Registered("numa_analysis") == Registered("hugepage_analysis") == Some(FAnalysis)
    ensures Registered("env_info_collector") == None
  {
  }

  /** Names of interfaces have room for 15 characters, the other texts of a driver for 31. */
  lemma Rooms(s: string, rest: string)
    requires |s| < U64
    ensures DecName(EncStr(s) + rest) == Some((s, rest)) <==> NoNul(s) && |s| <= 15
    ensures DecText(EncStr(s) + rest) == Some((s, rest)) <==> NoNul(s) && |s| <= 31
  {
    ArrayLaw(NAME, s, rest);
    ArrayLaw(TEXT, s, rest);
    hide EncStr;
    hide DecArray;
    hide NoNul;
  }
}
