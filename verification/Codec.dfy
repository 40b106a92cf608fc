/** The byte formats of serialize.h and message_protocol.h. A char stands for one byte. */
module Codec {
  import opened Seqs
  import opened TopicKey

  // ---------- Numbers ----------

  function Pow256(n: nat): (p: nat)
    ensures p > 0
  {
    if n == 0 then 1 else 256 * Pow256(n - 1)
  }

  const U32: nat := 0x1_0000_0000
  const U64: nat := 0x1_0000_0000_0000_0000

  /** n bytes, the least significant first. */
  function EncNat(x: nat, n: nat): (b: string)
    ensures |b| == n
  {
    if n == 0 then "" else [(x % 256) as char] + EncNat(x / 256, n - 1)
  }

  function Value(b: string): nat {
    if |b| == 0 then 0 else b[0] as int + 256 * Value(b[1..])
  }

  /** What is read from a stream, and the rest of it; None when the stream runs out. */
  type Read<T> = Option<(T, string)>

  function DecNat(b: string, n: nat): Read<nat> {
    if |b| < n then None else Some((Value(b[..n]), b[n..]))
  }

  lemma {:induction false} ValueOfEnc(x: nat, n: nat)
    requires x < Pow256(n)
    ensures Value(EncNat(x, n)) == x
    decreases n
  {
    if n > 0 {
      ValueOfEnc(x / 256, n - 1);
      assert EncNat(x, n)[1..] == EncNat(x / 256, n - 1);
    }
  }

  lemma Widths()
    ensures Pow256(4) == U32 && Pow256(8) == U64
  {
    assert Pow256(1) == 0x100 && Pow256(2) == 0x1_0000 && Pow256(3) == 0x100_0000;
    assert Pow256(5) == 0x100_0000_0000 && Pow256(6) == 0x1_0000_0000_0000 && Pow256(7) == 0x100_0000_0000_0000;
  }

  lemma NatLaw(x: nat, n: nat, rest: string)
    requires x < Pow256(n)
    ensures DecNat(EncNat(x, n) + rest, n) == Some((x, rest))
  {
    ValueOfEnc(x, n);
    assert (EncNat(x, n) + rest)[..n] == EncNat(x, n);
  }

  /** size_t, uint64_t and unsigned long. */
  function EncU64(x: nat): string {
    EncNat(x, 8)
  }

  function DecU64(b: string): Read<nat> {
    DecNat(b, 8)
  }

  lemma U64Law(x: nat, rest: string)
    requires x < U64
    ensures DecU64(EncU64(x) + rest) == Some((x, rest))
  {
    Widths();
    NatLaw(x, 8, rest);
  }

  function EncU32(x: nat): string {
    EncNat(x, 4)
  }

  function DecU32(b: string): Read<nat> {
    DecNat(b, 4)
  }

  lemma U32Law(x: nat, rest: string)
    requires x < U32
    ensures DecU32(EncU32(x) + rest) == Some((x, rest))
  {
    Widths();
    NatLaw(x, 4, rest);
  }

  predicate IsInt(x: int) {
    -0x8000_0000 <= x < 0x8000_0000
  }

  /** int, in two's complement. */
  function EncInt(x: int): string {
    EncNat(x % U32, 4)
  }

  function DecInt(b: string): Read<int> {
    match DecNat(b, 4)
    case None => None
    case Some(p) => Some((if p.0 < 0x8000_0000 then p.0 else p.0 - U32, p.1))
  }

  lemma IntLaw(x: int, rest: string)
    requires IsInt(x)
    ensures DecInt(EncInt(x) + rest) == Some((x, rest))
  {
    Widths();
    NatLaw(x % U32, 4, rest);
  }

  // ---------- Strings and lists ----------

  function EncStr(s: string): string {
    EncU64(|s|) + s
  }

  function DecStr(b: string): Read<string> {
    match DecU64(b)
    case None => None
    case Some(p) => if |p.1| < p.0 then None else Some((p.1[..p.0], p.1[p.0..]))
  }

  lemma StrLaw(s: string, rest: string)
    requires |s| < U64
    ensures DecStr(EncStr(s) + rest) == Some((s, rest))
  {
    assert EncStr(s) + rest == EncU64(|s|) + (s + rest);
    U64Law(|s|, s + rest);
    assert (s + rest)[..|s|] == s;
  }

  function EncSeq<T>(enc: T -> string, xs: seq<T>): string {
    if |xs| == 0 then "" else EncSeq(enc, Init(xs)) + enc(Last(xs))
  }

  function DecSeq<T>(dec: string -> Read<T>, n: nat, b: string): Read<seq<T>> {
    if n == 0 then Some(([], b))
    else
      match dec(b)
      case None => None
      case Some(p) =>
        match DecSeq(dec, n - 1, p.1)
        case None => None
        case Some(q) => Some(([p.0] + q.0, q.1))
  }

  /** Reading back one written value leaves exactly what followed it. */
  ghost predicate Law<T(!new)>(enc: T -> string, dec: string -> Read<T>, x: T) {
    forall rest :: dec(enc(x) + rest) == Some((x, rest))
  }

  lemma {:induction false} EncSeqCons<T>(enc: T -> string, xs: seq<T>)
    requires |xs| > 0
    ensures EncSeq(enc, xs) == enc(xs[0]) + EncSeq(enc, xs[1..])
    decreases |xs|
  {
    if |xs| == 1 {
      assert Init(xs) == [] && xs[1..] == [];
    } else {
      EncSeqCons(enc, Init(xs));
      assert Init(xs)[1..] == Init(xs[1..]) && Last(xs[1..]) == Last(xs);
    }
  }

  lemma {:induction false} SeqLaw<T(!new)>(enc: T -> string, dec: string -> Read<T>, xs: seq<T>, rest: string)
    requires forall i :: 0 <= i < |xs| ==> Law(enc, dec, xs[i])
    ensures DecSeq(dec, |xs|, EncSeq(enc, xs) + rest) == Some((xs, rest))
    decreases |xs|
  {
    if |xs| == 0 {
      assert EncSeq(enc, xs) + rest == rest;
    } else {
      var x, tail := xs[0], xs[1..];
      EncSeqCons(enc, xs);
      assert EncSeq(enc, xs) + rest == enc(x) + (EncSeq(enc, tail) + rest);
      assert Law(enc, dec, x);
      forall i | 0 <= i < |tail| ensures Law(enc, dec, tail[i]) {
        assert tail[i] == xs[i + 1];
      }
      SeqLaw(enc, dec, tail, rest);
      assert [x] + tail == xs;
    }
  }

  /** A vector: its length and its elements. */
  function EncVector<T>(enc: T -> string, xs: seq<T>): string {
    EncU64(|xs|) + EncSeq(enc, xs)
  }

  function DecVector<T>(dec: string -> Read<T>, b: string): Read<seq<T>> {
    match DecU64(b)
    case None => None
    case Some(p) => DecSeq(dec, p.0, p.1)
  }

  lemma VectorLaw<T(!new)>(enc: T -> string, dec: string -> Read<T>, xs: seq<T>, rest: string)
    requires |xs| < U64 && forall i :: 0 <= i < |xs| ==> Law(enc, dec, xs[i])
    ensures DecVector(dec, EncVector(enc, xs) + rest) == Some((xs, rest))
  {
    assert EncVector(enc, xs) + rest == EncU64(|xs|) + (EncSeq(enc, xs) + rest);
    U64Law(|xs|, EncSeq(enc, xs) + rest);
    SeqLaw(enc, dec, xs, rest);
  }

  // ---------- Messages ----------

  /** Message: the number of its operation, and its payload. */
  datatype Message = Message(opt: int, payload: seq<string>)

  predicate Sendable(m: Message) {
    IsInt(m.opt) && |m.payload| < U64 && forall s :: s in m.payload ==> |s| < U64
  }

  function EncMessage(m: Message): string {
    EncInt(m.opt) + EncVector(EncStr, m.payload)
  }

  function DecMessage(b: string): Read<Message> {
    match DecInt(b)
    case None => None
    case Some(p) =>
      match DecVector(DecStr, p.1)
      case None => None
      case Some(q) => Some((Message(p.0, q.0), q.1))
  }

  lemma MessageLaw(m: Message, rest: string)
    requires Sendable(m)
    ensures DecMessage(EncMessage(m) + rest) == Some((m, rest))
  {
    var tail := EncVector(EncStr, m.payload);
    assert EncMessage(m) + rest == EncInt(m.opt) + (tail + rest);
    IntLaw(m.opt, tail + rest);
    forall i | 0 <= i < |m.payload| ensures Law(EncStr, DecStr, m.payload[i]) {
      forall r ensures DecStr(EncStr(m.payload[i]) + r) == Some((m.payload[i], r)) {
        StrLaw(m.payload[i], r);
      }
    }
    VectorLaw(EncStr, DecStr, m.payload, rest);
  }

  /** Topic::Serialize and Topic::Deserialize. */
  function EncTopic(t: Topic): string {
    EncStr(t.instanceName) + EncStr(t.topicName) + EncStr(t.params)
  }

  function DecTopic(b: string): Read<Topic> {
    match DecStr(b)
    case None => None
    case Some(p) =>
      match DecStr(p.1)
      case None => None
      case Some(q) =>
        match DecStr(q.1)
        case None => None
        case Some(r) => Some((Topic(p.0, q.0, r.0), r.1))
  }

  predicate Short(t: Topic) {
    |t.instanceName| < U64 && |t.topicName| < U64 && |t.params| < U64
  }

  lemma TopicLaw(t: Topic, rest: string)
    requires Short(t)
    ensures DecTopic(EncTopic(t) + rest) == Some((t, rest))
  {
    var last := EncStr(t.params) + rest;
    var middle := EncStr(t.topicName) + last;
    assert EncTopic(t) + rest == EncStr(t.instanceName) + middle;
    StrLaw(t.instanceName, middle);
    StrLaw(t.topicName, last);
    StrLaw(t.params, rest);
    hide DecStr;
    hide EncStr;
  }

  /** Result: a code and a text. */
  datatype Result = Result(code: int, payload: string)

  function EncResult(r: Result): string {
    EncInt(r.code) + EncStr(r.payload)
  }

  function DecResult(b: string): Read<Result> {
    match DecInt(b)
    case None => None
    case Some(p) =>
      match DecStr(p.1)
      case None => None
      case Some(q) => Some((Result(p.0, q.0), q.1))
  }

  lemma ResultLaw(r: Result, rest: string)
    requires IsInt(r.code) && |r.payload| < U64
    ensures DecResult(EncResult(r) + rest) == Some((r, rest))
  {
    assert EncResult(r) + rest == EncInt(r.code) + (EncStr(r.payload) + rest);
    IntLaw(r.code, EncStr(r.payload) + rest);
    StrLaw(r.payload, rest);
  }
}
