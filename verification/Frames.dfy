/**
 * Messages over a byte stream on values (message_protocol.cpp): the buffered read, and receiving frames.
 * A recv call is an oracle: it delivers as many bytes as it likes of what was asked for and has arrived.
 */
module Frames {
  import opened Seqs
  import opened Codec

  const MAX_RECV_BUFF_SIZE: nat := 16384
  const MAX_BUFF_SIZE: nat := 4096
  const PREFIX: nat := 16

  /** What the k-th recv would deliver; zero or less means closed or failed. */
  type Oracle = nat -> int

  /** Bytes read into the buffer but not handed out, bytes not yet received, and the number of recv calls so far. */
  datatype Stream = Stream(unread: string, wire: string, calls: nat) {
    function Pending(): string {
      unread + wire
    }
  }

  datatype Got = Got(n: int, data: string, stream: Stream)

  function Least(a: int, b: int): int {
    if a <= b then a else b
  }

  /** recv into a buffer of the given size. */
  function Recv(o: Oracle, s: Stream, size: nat): (r: Got)
    ensures r.n > 0 ==> r.n == |r.data| <= size && r.data <= s.wire && r.stream.wire == s.wire[r.n..]
    ensures r.n <= 0 ==> r.data == "" && r.stream.wire == s.wire
    ensures r.stream.unread == s.unread && r.stream.calls == s.calls + 1
  {
    var n := if o(s.calls) <= 0 then o(s.calls) else Least(o(s.calls), Least(size, |s.wire|));
    if n <= 0 then Got(n, "", s.(calls := s.calls + 1))
    else Got(n, s.wire[..n], Stream(s.unread, s.wire[n..], s.calls + 1))
  }

  /** SocketStream::Read. */
  function Read(o: Oracle, s: Stream, size: nat): Got {
    if |s.unread| > 0 then
      var n := Least(size, |s.unread|);
      Got(n, s.unread[..n], s.(unread := s.unread[n..]))
    else if size < MAX_BUFF_SIZE then
      var r := Recv(o, s, MAX_BUFF_SIZE);
      if r.n <= 0 then r
      else
        var n := Least(r.n, size);
        Got(n, r.data[..n], r.stream.(unread := r.data[n..]))
    else Recv(o, s, size)
  }

  /** A read hands out the next bytes of the stream, at most as many as asked, and loses none. */
  lemma ReadRefinesStream(o: Oracle, s: Stream, size: nat)
    requires size > 0
    ensures var r := Read(o, s, size);
            && r.n <= size && |r.data| == (if r.n > 0 then r.n else 0)
            && r.data + r.stream.Pending() == s.Pending()
            && (r.n <= 0 ==> s.unread == "" && (o(s.calls) <= 0 || s.Pending() == ""))
  {
    var r := Read(o, s, size);
    if |s.unread| > 0 {
      Cut(s.unread, r.n, s.wire);
    } else {
      var v := Recv(o, s, if size < MAX_BUFF_SIZE then MAX_BUFF_SIZE else size);
      RecvLosesNothing(o, s, if size < MAX_BUFF_SIZE then MAX_BUFF_SIZE else size);
      hide Recv;
      if v.n > 0 && size < MAX_BUFF_SIZE {
        Cut(v.data, r.n, v.stream.wire);
      }
    }
  }

  lemma RecvLosesNothing(o: Oracle, s: Stream, size: nat)
    requires s.unread == "" && size > 0
    ensures var v := Recv(o, s, size);
            && v.data + v.stream.wire == s.wire && s.Pending() == s.wire && v.data + v.stream.Pending() == s.wire
            && (v.n <= 0 ==> o(s.calls) <= 0 || s.wire == "")
  {
    var v := Recv(o, s, size);
    assert v.stream.Pending() == v.stream.wire;
  }

  lemma Cut(a: string, n: nat, b: string)
    requires n <= |a|
    ensures a[..n] + (a[n..] + b) == a + b
  {
    assert a == a[..n] + a[n..];
  }

  lemma Assoc(a: string, b: string, c: string)
    ensures a + b + c == a + (b + c)
  {
  }

  /** Any sequence of requests: everything handed out so far, and what is pending, is what was sent. */
  function ReadAll(o: Oracle, s: Stream, sizes: seq<nat>): (string, Stream) {
    if |sizes| == 0 then ("", s)
    else
      var (before, m) := ReadAll(o, s, Init(sizes));
      var r := Read(o, m, Last(sizes));
      (before + r.data, r.stream)
  }

  lemma {:induction false} NothingLost(o: Oracle, s: Stream, sizes: seq<nat>)
    requires forall z :: z in sizes ==> z > 0
    ensures var (out, r) := ReadAll(o, s, sizes); out + r.Pending() == s.Pending()
    decreases |sizes|
  {
    if |sizes| > 0 {
      assert Last(sizes) in sizes && forall z :: z in Init(sizes) ==> z in sizes;
      NothingLost(o, s, Init(sizes));
      var (before, m) := ReadAll(o, s, Init(sizes));
      ReadRefinesStream(o, m, Last(sizes));
      var r := Read(o, m, Last(sizes));
      Assoc(before, r.data, r.stream.Pending());
    } else {
      assert "" + s.Pending() == s.Pending();
    }
  }

  // ---------- Reading a given number of bytes ----------

  datatype Bytes = Bytes(ok: bool, text: string, stream: Stream)

  /** ReadBuf, for `need` bytes. */
  function ReadBuf(o: Oracle, s: Stream, need: nat): Bytes
    decreases need
  {
    if need == 0 then Bytes(true, "", s)
    else
      var r := Read(o, s, Least(need, MAX_RECV_BUFF_SIZE));
      if r.n <= 0 || r.n > need then Bytes(false, "", r.stream)
      else
        var rest := ReadBuf(o, r.stream, need - r.n);
        Bytes(rest.ok, r.data + rest.text, rest.stream)
  }

  /** A successful ReadBuf returns exactly the next `need` bytes; a failed one loses nothing either. */
  lemma {:induction false} ReadBufExact(o: Oracle, s: Stream, need: nat)
    ensures var r := ReadBuf(o, s, need);
            && r.text + r.stream.Pending() == s.Pending()
            && (if r.ok then |r.text| == need else |r.text| < need)
            && r.stream.calls >= s.calls
    decreases need
  {
    if need > 0 {
      var r := Read(o, s, Least(need, MAX_RECV_BUFF_SIZE));
      ReadRefinesStream(o, s, Least(need, MAX_RECV_BUFF_SIZE));
      if r.n > 0 {
        ReadBufExact(o, r.stream, need - r.n);
        var rest := ReadBuf(o, r.stream, need - r.n);
        Assoc(r.data, rest.text, rest.stream.Pending());
      } else {
        assert r.data + r.stream.Pending() == r.stream.Pending();
      }
    } else {
      assert "" + s.Pending() == s.Pending();
    }
  }

  /** Every recv from now on delivers something. */
  ghost predicate Flowing(o: Oracle, s: Stream) {
    forall k: nat :: k >= s.calls ==> o(k) > 0
  }

  /** While data flows and enough of it is pending, ReadBuf succeeds. */
  lemma {:induction false} ReadBufSucceeds(o: Oracle, s: Stream, need: nat)
    requires Flowing(o, s) && need <= |s.Pending()|
    ensures ReadBuf(o, s, need).ok
    decreases need
  {
    if need > 0 {
      var size := Least(need, MAX_RECV_BUFF_SIZE);
      var r := Read(o, s, size);
      ReadRefinesStream(o, s, size);
      assert o(s.calls) > 0;
      assert |s.Pending()| == |r.data| + |r.stream.Pending()|;
      ReadBufSucceeds(o, r.stream, need - r.n);
    }
  }

  // ---------- Frames ----------

  /** GetProtocolStr: total length, header length, header, message. */
  function Frame(kind: int, m: Message): string {
    var head, body := EncInt(kind), EncMessage(m);
    EncU64(PREFIX + |head| + |body|) + EncU64(|head|) + (head + body)
  }

  /** A frame whose lengths fit in an int. */
  predicate Fitting(kind: int, m: Message) {
    IsInt(kind) && Sendable(m) && PREFIX + 4 + |EncMessage(m)| < 0x8000_0000
  }

  datatype Received = Received(ok: bool, header: string, body: string, stream: Stream)

  /** The two lengths in a prefix of at most 16 bytes; bytes that did not arrive count as zero. */
  function Lengths(prefix: string): (nat, nat) {
    if |prefix| <= 8 then (Value(prefix), 0) else (Value(prefix[..8]), Value(prefix[8..]))
  }

  /** How many bytes ReadBuf(start, end) asks for. */
  function Span(from: int, to: int): nat {
    if to <= from then 0 else to - from
  }

  /** Conversion of a uint64_t to int. */
  function ToInt(x: nat): (r: int)
    ensures IsInt(r) && (r - x) % U32 == 0 && (x < 0x8000_0000 ==> r == x)
  {
    var low := x % U32;
    if low < 0x8000_0000 then low else low - U32
  }

  /** Where the header ends, counted from the start of the frame. */
  function HeaderEnd(headLen: nat): nat {
    (PREFIX + headLen) % U64
  }

  /** RecvMessage: the prefix is read once; header and body are then counted from position 16, in ints. */
  function RecvMessage(o: Oracle, s: Stream): Received {
    var p := Read(o, s, PREFIX);
    if p.n <= 0 then Received(false, "", "", p.stream)
    else
      var (total, headLen) := Lengths(p.data);
      var h := ReadBuf(o, p.stream, Span(PREFIX, ToInt(HeaderEnd(headLen))));
      if !h.ok then Received(false, h.text, "", h.stream)
      else
        var b := ReadBuf(o, h.stream, Span(ToInt(HeaderEnd(headLen)), ToInt(total)));
        Received(b.ok, h.text, b.text, b.stream)
  }

  lemma FrameShape(kind: int, m: Message, rest: string)
    requires Fitting(kind, m)
    ensures var head, body := EncInt(kind), EncMessage(m);
            var prefix := EncU64(PREFIX + |head| + |body|) + EncU64(|head|);
            && |prefix| == PREFIX && |head| == 4
            && Frame(kind, m) + rest == prefix + (head + (body + rest))
            && Lengths(prefix) == (PREFIX + |head| + |body|, |head|)
            && |Frame(kind, m)| == PREFIX + |head| + |body|
  {
    var head, body := EncInt(kind), EncMessage(m);
    var prefix := EncU64(PREFIX + |head| + |body|) + EncU64(|head|);
    Assoc(prefix, head + body, rest);
    Assoc(head, body, rest);
    assert prefix[..8] == EncU64(PREFIX + |head| + |body|) && prefix[8..] == EncU64(|head|);
    Widths();
    ValueOfEnc(PREFIX + |head| + |body|, 8);
    ValueOfEnc(|head|, 8);
  }

  /** Splitting a text in two ways at the same place. */
  lemma SameSplit(a: string, b: string, c: string, d: string)
    requires a + b == c + d && |a| == |c|
    ensures a == c && b == d
  {
    assert a == (a + b)[..|a|] && c == (c + d)[..|c|];
    assert b == (a + b)[|a|..] && d == (c + d)[|c|..];
  }

  /** A complete prefix read takes exactly one frame off the stream. */
  lemma FrameReceived(o: Oracle, s: Stream, kind: int, m: Message, rest: string)
    requires Fitting(kind, m) && Flowing(o, s) && s.Pending() == Frame(kind, m) + rest
    requires Read(o, s, PREFIX).n == PREFIX
    ensures var r := RecvMessage(o, s);
            && r.ok && r.stream.Pending() == rest && Flowing(o, r.stream)
            && DecInt(r.header) == Some((kind, "")) && DecMessage(r.body) == Some((m, ""))
  {
    var head, body := EncInt(kind), EncMessage(m);
    var p := Read(o, s, PREFIX);
    FrameShape(kind, m, rest);
    ReadRefinesStream(o, s, PREFIX);
    var prefix := EncU64(PREFIX + |head| + |body|) + EncU64(|head|);
    SameSplit(p.data, p.stream.Pending(), prefix, head + (body + rest));
    ReadBufExact(o, p.stream, |head|);
    ReadBufSucceeds(o, p.stream, |head|);
    var h := ReadBuf(o, p.stream, |head|);
    SameSplit(h.text, h.stream.Pending(), head, body + rest);
    ReadBufExact(o, h.stream, |body|);
    ReadBufSucceeds(o, h.stream, |body|);
    var b := ReadBuf(o, h.stream, |body|);
    SameSplit(b.text, b.stream.Pending(), body, rest);
    assert head + "" == head && body + "" == body;
    IntLaw(kind, "");
    MessageLaw(m, "");
  }

  // ---------- Any reception ----------

  /** How many bytes a read hands out: what is buffered, as far as asked for, or else of what one recv has delivered. */
  lemma ReadCount(o: Oracle, s: Stream, size: nat)
    requires size > 0
    ensures var n := Read(o, s, size).n;
            if |s.unread| > 0 then n == if size < |s.unread| then size else |s.unread|
            else if o(s.calls) <= 0 then n == o(s.calls)
            else
              var most := if size < 4096 then 4096 else size;
              var got := if |s.wire| < o(s.calls) then |s.wire| else o(s.calls);
              n == if got < size then got else size
  {
  }

  /** Where the two parts of a frame end according to a prefix, and how long they are; lengths above 2^31 - 1 wrap around. */
  function PartLengths(total: nat, headLen: nat): (nat, nat) {
    var headerEnd, end := ToInt((16 + headLen) % 0x1_0000_0000_0000_0000), ToInt(total);
    (if headerEnd > 16 then headerEnd - 16 else 0, if end > headerEnd then end - headerEnd else 0)
  }

  /**
   * Any reception, whatever the stream holds: nothing is received when the first read yields nothing. Otherwise the header
   * and the body are the next bytes, as many as the prefix says, and while data flows it fails only for want of bytes.
   */
  lemma ReceptionMeaning(o: Oracle, s: Stream)
    ensures var p, r := Read(o, s, 16), RecvMessage(o, s);
            if p.n <= 0 then !r.ok && r.header == "" && r.body == "" && r.stream == p.stream
            else
              var (total, headLen) := Lengths(p.data);
              var (h, b) := PartLengths(total, headLen);
              && (r.ok ==> |r.header| == h && |r.body| == b && r.header + (r.body + r.stream.Pending()) == p.stream.Pending())
              && (Flowing(o, p.stream) ==> (r.ok <==> h + b <= |p.stream.Pending()|))
  {
    var p := Read(o, s, PREFIX);
    if p.n > 0 {
      var (total, headLen) := Lengths(p.data);
      var (h, b) := PartLengths(total, headLen);
      BothParts(o, p.stream, h, b);
      hide ReadBuf;
      hide Lengths;
      hide ToInt;
    }
    hide Read;
  }

  lemma BothParts(o: Oracle, s: Stream, h: nat, b: nat)
    ensures var x := ReadBuf(o, s, h);
            var y := ReadBuf(o, x.stream, b);
            && (x.ok && y.ok ==> |x.text| == h && |y.text| == b && x.text + (y.text + y.stream.Pending()) == s.Pending())
            && (Flowing(o, s) ==> (x.ok && y.ok <==> h + b <= |s.Pending()|))
  {
    var x := ReadBuf(o, s, h);
    var y := ReadBuf(o, x.stream, b);
    ReadBufExact(o, s, h);
    ReadBufExact(o, x.stream, b);
    assert |s.Pending()| == |x.text| + |x.stream.Pending()| && |x.stream.Pending()| == |y.text| + |y.stream.Pending()|;
    if Flowing(o, s) && h + b <= |s.Pending()| {
      ReadBufSucceeds(o, s, h);
      assert Flowing(o, x.stream);
      ReadBufSucceeds(o, x.stream, b);
    }
    hide ReadBuf;
  }

  // ---------- A stream of frames ----------

  datatype Sent = Sent(kind: int, message: Message)

  function Encoded(sent: seq<Sent>): string {
    if |sent| == 0 then "" else Frame(sent[0].kind, sent[0].message) + Encoded(sent[1..])
  }

  /** The next n receptions, each with a complete prefix. */
  ghost predicate PrefixesComplete(o: Oracle, s: Stream, n: nat)
    decreases n
  {
    n > 0 ==> Read(o, s, PREFIX).n == PREFIX && PrefixesComplete(o, RecvMessage(o, s).stream, n - 1)
  }

  /** What n receptions yield, decoded; a failed reception or undecodable text ends it. */
  function RecvAll(o: Oracle, s: Stream, n: nat): (seq<Sent>, Stream)
    decreases n
  {
    if n == 0 then ([], s)
    else
      var r := RecvMessage(o, s);
      match (DecInt(r.header), DecMessage(r.body))
      case (Some(k), Some(m)) =>
        if !r.ok then ([], r.stream)
        else
          var (more, last) := RecvAll(o, r.stream, n - 1);
          ([Sent(k.0, m.0)] + more, last)
      case _ => ([], r.stream)
  }

  /**
   * Messages sent back to back are received one by one, in order, however recv cuts the bytes, as long as no
   * prefix is cut; afterwards the stream stands right behind the last frame.
   */
  lemma {:induction false} AllReceived(o: Oracle, s: Stream, sent: seq<Sent>, rest: string)
    requires AllFitting(sent)
    requires Flowing(o, s) && s.Pending() == Encoded(sent) + rest && PrefixesComplete(o, s, |sent|)
    ensures RecvAll(o, s, |sent|).0 == sent && RecvAll(o, s, |sent|).1.Pending() == rest
    decreases |sent|
  {
    if |sent| == 0 {
      assert "" + rest == rest;
    } else {
      var next, tail := RecvMessage(o, s).stream, sent[1..];
      OneReceived(o, s, sent, rest);
      AllReceived(o, next, tail, rest);
      assert [sent[0]] + tail == sent;
      hide *;
    }
  }

  ghost predicate AllFitting(sent: seq<Sent>) {
    forall i :: 0 <= i < |sent| ==> Fitting(sent[i].kind, sent[i].message)
  }

  lemma FittingParts(sent: seq<Sent>)
    requires |sent| > 0 && AllFitting(sent)
    ensures Fitting(sent[0].kind, sent[0].message) && AllFitting(sent[1..])
  {
  }

  lemma PrefixesStep(o: Oracle, s: Stream, n: nat)
    requires n > 0 && PrefixesComplete(o, s, n)
    ensures Read(o, s, PREFIX).n == PREFIX && PrefixesComplete(o, RecvMessage(o, s).stream, n - 1)
  {
  }

  lemma OneReceived(o: Oracle, s: Stream, sent: seq<Sent>, rest: string)
    requires |sent| > 0 && AllFitting(sent)
    requires Flowing(o, s) && s.Pending() == Encoded(sent) + rest && PrefixesComplete(o, s, |sent|)
    ensures var next, tail := RecvMessage(o, s).stream, sent[1..];
            && AllFitting(tail) && Flowing(o, next) && next.Pending() == Encoded(tail) + rest && PrefixesComplete(o, next, |tail|)
            && RecvAll(o, s, |sent|).0 == [sent[0]] + RecvAll(o, next, |tail|).0
            && RecvAll(o, s, |sent|).1 == RecvAll(o, next, |tail|).1
  {
    EncodedCons(sent, rest);
    FittingParts(sent);
    PrefixesStep(o, s, |sent|);
    hide AllFitting;
    hide PrefixesComplete;
    FrameReceived(o, s, sent[0].kind, sent[0].message, Encoded(sent[1..]) + rest);
    RecvAllStep(o, s, |sent|, sent[0]);
    hide Frame;
    hide RecvMessage;
    hide RecvAll;
    hide Encoded;
    hide Read;
    hide Fitting;
    hide Flowing;
    hide DecInt;
    hide DecMessage;
  }

  lemma EncodedCons(sent: seq<Sent>, rest: string)
    requires |sent| > 0
    ensures Encoded(sent) + rest == Frame(sent[0].kind, sent[0].message) + (Encoded(sent[1..]) + rest)
  {
    hide Frame;
    Assoc(Frame(sent[0].kind, sent[0].message), Encoded(sent[1..]), rest);
  }

  lemma RecvAllStep(o: Oracle, s: Stream, n: nat, first: Sent)
    requires n > 0
    requires var r := RecvMessage(o, s);
             r.ok && DecInt(r.header) == Some((first.kind, "")) && DecMessage(r.body) == Some((first.message, ""))
    ensures var (more, last) := RecvAll(o, RecvMessage(o, s).stream, n - 1);
            RecvAll(o, s, n) == ([first] + more, last)
  {
    hide RecvMessage;
    hide DecInt;
    hide DecMessage;
  }

  // ---------- A cut prefix ----------

  lemma {:induction false} ValueOfPart(b: string, k: nat)
    requires k <= |b|
    ensures Value(b[..k]) <= Value(b)
    decreases |b|
  {
    if k > 0 {
      ValueOfPart(b[1..], k - 1);
      assert b[..k][1..] == b[1..][..k - 1];
    }
  }

  /** A successful reception takes the prefix and the counted bytes off the stream. */
  lemma ReceptionLength(o: Oracle, s: Stream, total: nat, headLen: nat)
    requires RecvMessage(o, s).ok && Lengths(Read(o, s, PREFIX).data) == (total, headLen)
    requires PREFIX + headLen < 0x8000_0000 && total < 0x8000_0000
    ensures |s.Pending()| == |Read(o, s, PREFIX).data| + headLen + Span(PREFIX + headLen, total) + |RecvMessage(o, s).stream.Pending()|
  {
    var p := Read(o, s, PREFIX);
    ReadRefinesStream(o, s, PREFIX);
    assert Span(PREFIX, ToInt(HeaderEnd(headLen))) == headLen;
    assert Span(ToInt(HeaderEnd(headLen)), ToInt(total)) == Span(PREFIX + headLen, total);
    hide ToInt;
    hide HeaderEnd;
    hide Read;
    ReadBufExact(o, p.stream, headLen);
    var h := ReadBuf(o, p.stream, headLen);
    ReadBufExact(o, h.stream, Span(PREFIX + headLen, total));
    hide ReadBuf;
  }

  /** With a cut prefix, the counted bytes fall short of the frame. */
  lemma CutPrefixFallsShort(o: Oracle, s: Stream, kind: int, m: Message, rest: string)
    requires Fitting(kind, m) && s.Pending() == Frame(kind, m) + rest
    requires 0 < Read(o, s, PREFIX).n < PREFIX && RecvMessage(o, s).ok
    ensures |RecvMessage(o, s).stream.Pending()| > |rest|
  {
    var head, body := EncInt(kind), EncMessage(m);
    var prefix := EncU64(PREFIX + |head| + |body|) + EncU64(|head|);
    var p := Read(o, s, PREFIX);
    FrameShape(kind, m, rest);
    ReadRefinesStream(o, s, PREFIX);
    CutLengths(p.data, p.stream.Pending(), prefix, head + (body + rest));
    var (total, headLen) := Lengths(p.data);
    ReceptionLength(o, s, total, headLen);
    hide Frame;
    hide EncU64;
    hide EncInt;
    hide EncMessage;
    hide Read;
    hide RecvMessage;
    hide Lengths;
  }

  lemma CutLengths(data: string, after: string, prefix: string, tail: string)
    requires data + after == prefix + tail && |data| < |prefix| == PREFIX
    ensures Lengths(data).0 <= Lengths(prefix).0 && Lengths(data).1 <= Lengths(prefix).1
  {
    assert data == (data + after)[..|data|] == (prefix + tail)[..|data|] == prefix[..|data|];
    if |data| <= 8 {
      assert prefix[..8][..|data|] == data;
      ValueOfPart(prefix[..8], |data|);
    } else {
      assert data[..8] == prefix[..8] && data[8..] == prefix[8..][..|data| - 8];
      ValueOfPart(prefix[8..], |data| - 8);
    }
  }

  /** A reception takes exactly the frame off the stream exactly when the first read returned the whole 16-byte prefix. */
  lemma BoundaryExactly(o: Oracle, s: Stream, kind: int, m: Message, rest: string)
    requires Fitting(kind, m) && Flowing(o, s) && s.Pending() == Frame(kind, m) + rest
    ensures RecvMessage(o, s).ok && RecvMessage(o, s).stream.Pending() == rest <==> Read(o, s, PREFIX).n == PREFIX
  {
    ReadRefinesStream(o, s, PREFIX);
    if Read(o, s, PREFIX).n == PREFIX {
      FrameReceived(o, s, kind, m, rest);
    } else if RecvMessage(o, s).ok {
      CutPrefixFallsShort(o, s, kind, m, rest);
    }
  }

  /** Delivers 15 bytes first, then whatever is asked for. */
  function CutFirst(k: nat): int {
    if k == 0 then 15 else 4096
  }

  const SMALLEST: Message := Message(0, [])

  lemma SmallestFrame()
    ensures Fitting(7, SMALLEST) && EncInt(7)[0] == 7 as char
    ensures var w := Frame(7, SMALLEST);
            && |w| == 32 && Lengths(w[..15]) == (32, 4)
            && w[15] == '\0' && w[16] == 7 as char && w[17] == '\0' && w[18] == '\0'
  {
    var body := EncMessage(SMALLEST);
    assert SMALLEST.payload == [] && EncSeq(EncStr, SMALLEST.payload) == "";
    assert |EncVector(EncStr, SMALLEST.payload)| == 8;
    assert |body| == 12;
    FrameShape(7, SMALLEST, "");
    SmallEncodings();
    assert Frame(7, SMALLEST) == EncU64(32) + EncU64(4) + (EncInt(7) + body);
    FramePlaces(EncU64(32), EncU64(4), EncInt(7), body);
    hide Frame;
    hide EncMessage;
    hide EncU64;
    hide EncInt;
  }

  lemma FramePlaces(a: string, b: string, c: string, d: string)
    requires |a| == 8 && |b| == 8 && |c| == 4
    ensures var w := a + b + (c + d);
            Lengths(w[..15]) == (Value(a), Value(b[..7])) && w[15] == b[7] && w[16] == c[0] && w[17] == c[1] && w[18] == c[2]
  {
    var w := a + b + (c + d);
    assert w[..15][..8] == a && w[..15][8..] == b[..7];
  }

  /**
   * Such a cut prefix: the smallest frame, of which the first recv delivers 15 bytes. The reception succeeds, with a
   * header that starts one byte early, and one byte of the frame is left on the stream.
   */
  lemma CutPrefixReceived()
    ensures var s := Stream("", Frame(7, SMALLEST), 0);
            var r := RecvMessage(CutFirst, s);
            && Fitting(7, SMALLEST) && Flowing(CutFirst, s) && Read(CutFirst, s, PREFIX).n == 15
            && r.ok && |r.stream.Pending()| == 1 && r.header == ['\0', 7 as char, '\0', '\0'] && r.header != EncInt(7)
  {
    SmallestFrame();
    var w := Frame(7, SMALLEST);
    hide Frame;
    hide EncInt;
    hide EncU64;
    var s := Stream("", w, 0);
    var p := Read(CutFirst, s, PREFIX);
    assert p.n == 15 && p.data == w[..15];
    ReadRefinesStream(CutFirst, s, PREFIX);
    hide Read;
    hide ReadBuf;
    hide Lengths;
    TwoParts(CutFirst, p.stream, w, 4, 12);
  }

  /** Reading a and then b of the bytes that follow the first 15. */
  lemma TwoParts(o: Oracle, s: Stream, w: string, a: nat, b: nat)
    requires Flowing(o, s) && |w| >= 15 + a + b && w[..15] + s.Pending() == w
    ensures var h := ReadBuf(o, s, a);
            var r := ReadBuf(o, h.stream, b);
            h.ok && r.ok && h.text == w[15..15 + a] && |r.stream.Pending()| == |w| - 15 - a - b
  {
    ReadBufExact(o, s, a);
    ReadBufSucceeds(o, s, a);
    var h := ReadBuf(o, s, a);
    assert s.Pending() == w[15..];
    assert h.text == (h.text + h.stream.Pending())[..a];
    ReadBufExact(o, h.stream, b);
    ReadBufSucceeds(o, h.stream, b);
    hide ReadBuf;
  }

  /** The bytes of the numbers in that frame. */
  lemma SmallEncodings()
    ensures EncInt(7) == [7 as char, '\0', '\0', '\0']
    ensures EncU64(4)[7] == '\0' && Value(EncU64(4)[..7]) == 4 && Value(EncU64(32)) == 32
  {
    assert EncNat(0, 0) == "" && EncNat(0, 1) == ['\0'] && EncNat(0, 2) == ['\0', '\0'] && EncNat(0, 3) == ['\0', '\0', '\0'];
    assert EncNat(0, 4) == ['\0'] + EncNat(0, 3) && EncNat(0, 5) == ['\0'] + EncNat(0, 4) && EncNat(0, 6) == ['\0'] + EncNat(0, 5);
    assert EncNat(0, 7) == ['\0'] + EncNat(0, 6);
    assert EncNat(4, 8) == [4 as char] + EncNat(0, 7) && EncNat(7, 4) == [7 as char] + EncNat(0, 3);
    assert EncU64(4)[..7] == [4 as char] + EncNat(0, 6);
    Widths();
    ValueOfEnc(32, 8);
    ValueOfEnc(0, 6);
    assert ([4 as char] + EncNat(0, 6))[1..] == EncNat(0, 6);
  }
}
