/** The stream objects of serialize.h, and the loops that write and read lists through them. */
module Streams {
  import opened Seqs
  import opened Codec
  import opened DataCodec

  class OutStream {
    var os: string

    constructor ()
      ensures os == ""
    {
      os := "";
    }

    method Append(data: string)
      modifies this
      ensures os == old(os) + data
    {
      os := os + data;
    }

    method PutString(s: string)
      modifies this
      ensures os == old(os) + EncStr(s)
    {
      Append(EncU64(|s|));
      Append(s);
      assert old(os) + EncU64(|s|) + s == old(os) + (EncU64(|s|) + s);
    }

    /** A vector of strings: its length, then each of them. */
    method PutStrings(data: seq<string>)
      modifies this
      ensures os == old(os) + EncVector(EncStr, data)
    {
      Append(EncU64(|data|));
      ghost var start := os;
      for i := 0 to |data|
        invariant os == start + EncSeq(EncStr, data[..i])
      {
        EncSeqStep(EncStr, data, i);
        PutString(data[i]);
      }
      assert data[..|data|] == data;
      assert old(os) + EncU64(|data|) + EncSeq(EncStr, data) == old(os) + (EncU64(|data|) + EncSeq(EncStr, data));
    }

    method PutMessage(m: Message)
      modifies this
      ensures os == old(os) + EncMessage(m)
    {
      Append(EncInt(m.opt));
      PutStrings(m.payload);
      assert old(os) + EncInt(m.opt) + EncVector(EncStr, m.payload) == old(os) + EncMessage(m);
    }
  }

  lemma EncSeqStep<T>(enc: T -> string, xs: seq<T>, i: nat)
    requires i < |xs|
    ensures EncSeq(enc, xs[..i + 1]) == EncSeq(enc, xs[..i]) + enc(xs[i])
  {
    assert Init(xs[..i + 1]) == xs[..i];
  }

  /** The text still to be read, and the position in it. */
  class InStream {
    const text: string
    var pos: nat

    ghost predicate Valid()
      reads this
    {
      pos <= |text|
    }

    ghost function Rest(): string
      reads this
      requires Valid()
    {
      text[pos..]
    }

    constructor (s: string)
      ensures Valid() && Rest() == s
    {
      text, pos := s, 0;
    }

    /** The next n bytes; a short text leaves nothing to read. */
    method Deserialize(n: nat) returns (ok: bool, data: string)
      requires Valid()
      modifies this
      ensures Valid()
      ensures ok == (n <= |old(Rest())|)
      ensures ok ==> data == old(Rest())[..n] && Rest() == old(Rest())[n..]
    {
      ok := n <= |text| - pos;
      if ok {
        data := text[pos..pos + n];
        pos := pos + n;
      } else {
        data := text[pos..];
        pos := |text|;
      }
    }

    method GetInt() returns (ok: bool, x: int)
      requires Valid()
      modifies this
      ensures Valid()
      ensures if ok then DecInt(old(Rest())) == Some((x, Rest())) else DecInt(old(Rest())) == None
    {
      var data;
      x := 0;
      ok, data := Deserialize(4);
      if ok {
        x := if Value(data) < 0x8000_0000 then Value(data) else Value(data) - U32;
      }
    }

    method GetSize() returns (ok: bool, x: nat)
      requires Valid()
      modifies this
      ensures Valid()
      ensures if ok then DecU64(old(Rest())) == Some((x, Rest())) else DecU64(old(Rest())) == None
    {
      var data;
      x := 0;
      ok, data := Deserialize(8);
      if ok {
        x := Value(data);
      }
    }

    method GetString() returns (ok: bool, s: string)
      requires Valid()
      modifies this
      ensures Valid()
      ensures if ok then DecStr(old(Rest())) == Some((s, Rest())) else DecStr(old(Rest())) == None
    {
      var len;
      s := "";
      ok, len := GetSize();
      if ok {
        ok, s := Deserialize(len);
      }
    }

    /** A text read into a C string. */
    method GetCString() returns (ok: bool, s: string)
      requires Valid()
      modifies this
      ensures Valid()
      ensures if ok then DecC(old(Rest())) == Some((s, Rest())) else DecC(old(Rest())) == None
    {
      ok, s := GetString();
      s := Cut(s);
    }

    method GetStrings() returns (ok: bool, data: seq<string>)
      requires Valid()
      modifies this
      ensures Valid()
      ensures if ok then DecVector(DecStr, old(Rest())) == Some((data, Rest())) else DecVector(DecStr, old(Rest())) == None
    {
      var len;
      data := [];
      ok, len := GetSize();
      if !ok {
        return;
      }
      ghost var goal := DecSeq(DecStr, len, Rest());
      ReadingStarts(DecStr, len, Rest());
      hide DecStr;
      hide Reading;
      hide DecSeq;
      for i := 0 to len
        invariant Valid() && |data| == i
        invariant Reading(DecStr, goal, data, len - i, Rest())
      {
        ReadingStep(DecStr, goal, data, len - i, Rest());
        var s;
        ok, s := GetString();
        if !ok {
          return;
        }
        data := data + [s];
      }
      ReadingEnds(DecStr, goal, data, Rest());
    }

    method GetMessage() returns (ok: bool, m: Message)
      requires Valid()
      modifies this
      ensures Valid()
      ensures if ok then DecMessage(old(Rest())) == Some((m, Rest())) else DecMessage(old(Rest())) == None
    {
      m := Message(0, []);
      var opt, payload;
      ok, opt := GetInt();
      if ok {
        ok, payload := GetStrings();
        m := Message(opt, payload);
      }
    }
  }

  /** What has been read so far, before what is read from here on. */
  ghost function Continue<T>(done: seq<T>, r: Read<seq<T>>): Read<seq<T>> {
    match r
    case None => None
    case Some(p) => Some((done + p.0, p.1))
  }

  /** A list of which `done` has been read and n elements are still to be read from b. */
  ghost predicate Reading<T>(dec: string -> Read<T>, goal: Read<seq<T>>, done: seq<T>, n: nat, b: string) {
    goal == Continue(done, DecSeq(dec, n, b))
  }

  lemma ReadingStarts<T>(dec: string -> Read<T>, n: nat, b: string)
    ensures Reading(dec, DecSeq(dec, n, b), [], n, b)
  {
    var r := DecSeq(dec, n, b);
    if r.Some? {
      assert [] + r.value.0 == r.value.0;
    }
  }

  lemma ReadingStep<T>(dec: string -> Read<T>, goal: Read<seq<T>>, done: seq<T>, n: nat, b: string)
    requires Reading(dec, goal, done, n, b) && n > 0
    ensures match dec(b) case None => goal == None case Some(p) => Reading(dec, goal, done + [p.0], n - 1, p.1)
  {
    if dec(b).Some? {
      var p := dec(b).value;
      var q := DecSeq(dec, n - 1, p.1);
      if q.Some? {
        assert done + ([p.0] + q.value.0) == done + [p.0] + q.value.0;
      }
    }
  }

  lemma ReadingEnds<T>(dec: string -> Read<T>, goal: Read<seq<T>>, done: seq<T>, b: string)
    requires Reading(dec, goal, done, 0, b)
    ensures goal == Some((done, b))
  {
    assert done + [] == done;
  }

  // ---------- Kernel settings as a linked list ----------

  class KernelDataNode {
    var key: string
    var value: string
    var next: KernelDataNode?

    constructor (key: string, value: string)
      ensures this.key == key && this.value == value && next == null
    {
      this.key, this.value, next := key, value, null;
    }

    ghost function Content(): Pair
      reads this
    {
      Pair(key, value)
    }
  }

  /** The nodes follow each other, and the last one ends the list. */
  ghost predicate Chain(nodes: seq<KernelDataNode>)
    reads nodes
  {
    && (forall i, j :: 0 <= i < j < |nodes| ==> nodes[i] != nodes[j])
    && (forall i :: 0 <= i < |nodes| - 1 ==> nodes[i].next == nodes[i + 1])
    && (|nodes| > 0 ==> nodes[|nodes| - 1].next == null)
  }

  ghost function Contents(nodes: seq<KernelDataNode>): seq<Pair>
    reads nodes
  {
    seq(|nodes|, i requires 0 <= i < |nodes| reads nodes => nodes[i].Content())
  }

  method PutPair(out: OutStream, node: KernelDataNode)
    modifies out
    ensures out.os == old(out.os) + EncPair(node.Content())
  {
    out.PutString(node.key);
    out.PutString(node.value);
    Regroup(old(out.os), EncStr(node.key), EncStr(node.value));
  }

  /** Reads one pair of C strings. */
  method GetPair(s: InStream) returns (ok: bool, p: Pair)
    requires s.Valid()
    modifies s
    ensures s.Valid()
    ensures if ok then DecPair(old(s.Rest())) == Some((p, s.Rest())) else DecPair(old(s.Rest())) == None
  {
    p := Pair("", "");
    var key, value;
    ok, key := s.GetCString();
    if ok {
      ok, value := s.GetCString();
      p := Pair(key, value);
    }
  }

  lemma NodeAt(nodes: seq<KernelDataNode>, i: nat)
    requires Chain(nodes) && i < |nodes|
    ensures |Contents(nodes)| == |nodes| && Contents(nodes)[i] == nodes[i].Content()
    ensures nodes[i].next == if i + 1 < |nodes| then nodes[i + 1] else null
  {
  }

  lemma EncSeqNone<T>(enc: T -> string, xs: seq<T>)
    ensures EncSeq(enc, xs[..0]) == ""
  {
  }

  class KernelDataList {
    var len: int
    var head: KernelDataNode?
    ghost var nodes: seq<KernelDataNode>

    ghost predicate Linked()
      reads this, nodes
    {
      Chain(nodes) && head == if |nodes| == 0 then null else nodes[0]
    }

    /** As many nodes as the length says; none when it is negative. */
    ghost predicate Valid()
      reads this, nodes
    {
      Linked() && |nodes| == Count(len)
    }

    ghost function View(): KernelData
      reads this, nodes
    {
      KernelData(len, Contents(nodes))
    }

    /** KernelDataSerialize: the length, and the pairs of the nodes in order. */
    method Serialize(out: OutStream)
      requires Valid()
      modifies out
      ensures out.os == old(out.os) + EncKernel(View())
    {
      out.Append(EncInt(len));
      ghost var start, pairs := out.os, Contents(nodes);
      var node := head;
      hide Contents;
      hide Chain;
      hide EncSeq;
      hide EncPair;
      EncSeqNone(EncPair, pairs);
      var i := 0;
      while i < len
        invariant 0 <= i <= Count(len) && Valid() && Contents(nodes) == pairs
        invariant node == if i < |nodes| then nodes[i] else null
        invariant out.os == start + EncSeq(EncPair, pairs[..i])
      {
        EncSeqStep(EncPair, pairs, i);
        NodeAt(nodes, i);
        ghost var before := out.os;
        PutPair(out, node);
        Regroup(start, EncSeq(EncPair, pairs[..i]), EncPair(pairs[i]));
        node := node.next;
        i := i + 1;
      }
      assert pairs[..Count(len)] == pairs;
      Regroup(old(out.os), EncInt(len), EncSeq(EncPair, pairs));
    }

    /** An empty list, to be filled. */
    constructor ()
      ensures Linked() && len == 0 && nodes == []
    {
      len, head, nodes := 0, null, [];
    }
  }

  /** Appends a node after the last one. */
  method AppendNode(list: KernelDataList, last: KernelDataNode?, p: Pair) returns (node: KernelDataNode)
    requires list.Linked() && last == if |list.nodes| == 0 then null else list.nodes[|list.nodes| - 1]
    modifies list, list.nodes
    ensures fresh(node) && list.len == old(list.len) && list.Linked() && list.nodes == old(list.nodes) + [node]
    ensures list.View().nodes == old(list.View().nodes) + [p]
  {
    node := new KernelDataNode(p.key, p.value);
    ghost var before, pairs := list.nodes, list.View().nodes;
    if last == null {
      list.head := node;
    } else {
      last.next := node;
    }
    list.nodes := list.nodes + [node];
    assert list.nodes[..|before|] == before;
    forall i | 0 <= i < |before| ensures list.nodes[i].Content() == pairs[i] {
      assert list.nodes[i] == before[i];
    }
    assert list.View().nodes == pairs + [p];
  }

  /** KernelDataDeserialize: a new node for every pair read, each linked after the one before. */
  method KernelDataDeserialize(s: InStream) returns (ok: bool, list: KernelDataList)
    requires s.Valid()
    modifies s
    ensures fresh(list) && s.Valid()
    ensures ok ==> list.Valid()
    ensures if ok then DecKernel(old(s.Rest())) == Some((list.View(), s.Rest())) else DecKernel(old(s.Rest())) == None
  {
    list := new KernelDataList();
    var n;
    ok, n := s.GetInt();
    if !ok {
      return;
    }
    list.len := n;
    ghost var goal := DecSeq(DecPair, Count(n), s.Rest());
    assert list.View().nodes == [];
    ReadingStarts(DecPair, Count(n), s.Rest());
    ok := ReadNodes(s, list, goal);
  }

  /** The loop: a new node for each of the pairs that the length announces. */
  method ReadNodes(s: InStream, list: KernelDataList, ghost goal: Read<seq<Pair>>) returns (ok: bool)
    requires s.Valid() && list.Linked() && list.nodes == []
    requires Reading(DecPair, goal, [], Count(list.len), s.Rest())
    modifies s, list
    ensures s.Valid() && fresh(list.nodes) && list.len == old(list.len)
    ensures ok ==> list.Valid()
    ensures goal == if ok then Some((list.View().nodes, s.Rest())) else None
  {
    hide Reading;
    hide DecPair;
    var last: KernelDataNode? := null;
    var i := 0;
    ok := true;
    assert list.View().nodes == [];
    while i < list.len
      invariant s.Valid() && list.Linked() && list.len == old(list.len) && fresh(list.nodes)
      invariant 0 <= i <= Count(list.len) && |list.nodes| == i && last == if |list.nodes| == 0 then null else list.nodes[|list.nodes| - 1]
      invariant Reading(DecPair, goal, list.View().nodes, Count(list.len) - i, s.Rest())
    {
      ghost var done := list.View().nodes;
      ReadingStep(DecPair, goal, done, Count(list.len) - i, s.Rest());
      var p;
      ok, p := GetPair(s);
      if !ok {
        return;
      }
      assert list.View().nodes == done;
      last := AppendNode(list, last, p);
      i := i + 1;
    }
    ReadingEnds(DecPair, goal, list.View().nodes, s.Rest());
  }
}
