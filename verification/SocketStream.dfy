/** The buffered socket reader of message_protocol.cpp, updating its buffer and positions in place. */
module SocketStream {
  import opened Seqs
  import opened Codec
  import opened Frames

  /** What ReadBuf has appended so far, before what it still reads. */
  ghost function After(msg: string, r: Bytes): Bytes {
    Bytes(r.ok, msg + r.text, r.stream)
  }

  /** `goal` is what ReadBuf comes to when msg has been read and `need` bytes are still wanted from s. */
  ghost predicate Underway(o: Oracle, goal: Bytes, msg: string, s: Stream, need: nat) {
    goal == After(msg, Frames.ReadBuf(o, s, need))
  }

  lemma UnderwayStarts(o: Oracle, s: Stream, need: nat)
    ensures Underway(o, Frames.ReadBuf(o, s, need), "", s, need)
  {
    assert "" + Frames.ReadBuf(o, s, need).text == Frames.ReadBuf(o, s, need).text;
  }

  lemma UnderwayStep(o: Oracle, goal: Bytes, msg: string, s: Stream, need: nat)
    requires Underway(o, goal, msg, s, need) && need > 0
    ensures var r := Frames.Read(o, s, Least(need, MAX_RECV_BUFF_SIZE));
            && r.n <= need
            && (r.n <= 0 ==> goal == Bytes(false, msg, r.stream))
            && (r.n > 0 ==> Underway(o, goal, msg + r.data, r.stream, need - r.n))
  {
    var size := Least(need, MAX_RECV_BUFF_SIZE);
    ReadRefinesStream(o, s, size);
    var r := Frames.Read(o, s, size);
    if r.n > 0 {
      Assoc(msg, r.data, Frames.ReadBuf(o, r.stream, need - r.n).text);
    } else {
      assert msg + "" == msg;
    }
  }

  lemma UnderwayEnds(o: Oracle, goal: Bytes, msg: string, s: Stream)
    requires Underway(o, goal, msg, s, 0)
    ensures goal == Bytes(true, msg, s)
  {
    assert msg + "" == msg;
  }

  class SocketStream {
    const recv: Oracle
    var wire: string
    var calls: nat
    const readBuff: array<char>
    var readBuffOff: nat
    var readBuffContentSize: nat

    ghost predicate Valid()
      reads this, readBuff
    {
      readBuff.Length == MAX_BUFF_SIZE && readBuffContentSize <= MAX_BUFF_SIZE && readBuffOff <= readBuffContentSize
    }

    ghost function View(): Stream
      reads this, readBuff
      requires Valid()
    {
      Stream(readBuff[readBuffOff..readBuffContentSize], wire, calls)
    }

    constructor (recv: Oracle, wire: string)
      ensures Valid() && View() == Stream("", wire, 0) && this.recv == recv
    {
      this.recv, this.wire, calls := recv, wire, 0;
      readBuff := new char[MAX_BUFF_SIZE](_ => '\0');
      readBuffOff, readBuffContentSize := 0, 0;
    }

    /** recv on the socket. */
    method ReadSocket(size: nat) returns (n: int, data: string)
      requires Valid() && readBuffOff == readBuffContentSize
      modifies this`wire, this`calls
      ensures Valid() && Got(n, data, View()) == Recv(recv, old(View()), size)
    {
      n, data := recv(calls), "";
      if n > 0 {
        n := Least(n, Least(size, |wire|));
        if n > 0 {
          data, wire := wire[..n], wire[n..];
        }
      }
      calls := calls + 1;
    }

    /** Fills the buffer with one recv. */
    method Fill() returns (n: int)
      requires Valid() && readBuffOff == readBuffContentSize == 0
      modifies this, readBuff
      ensures Valid() && readBuffOff == 0 && n <= MAX_BUFF_SIZE
      ensures var r := Recv(recv, old(View()), MAX_BUFF_SIZE);
              && n == r.n && readBuffContentSize == |r.data| && View() == r.stream.(unread := r.data)
    {
      var data;
      n, data := ReadSocket(MAX_BUFF_SIZE);
      if n > 0 {
        forall i | 0 <= i < n {
          readBuff[i] := data[i];
        }
        readBuffContentSize := n;
        assert readBuff[..n] == data;
      }
    }

    /** Hands out the next n bytes of the buffer. */
    method HandOut(n: nat) returns (data: string)
      requires Valid() && n <= readBuffContentSize - readBuffOff
      modifies this`readBuffOff
      ensures Valid()
      ensures data == old(View()).unread[..n] && View() == old(View()).(unread := old(View()).unread[n..])
    {
      data := readBuff[readBuffOff..readBuffOff + n];
      readBuffOff := readBuffOff + n;
    }

    /** Read: from the buffer if it holds anything, else through the buffer for small requests, else directly. */
    method Read(size: nat) returns (n: int, data: string)
      requires Valid() && 0 < size <= MAX_RECV_BUFF_SIZE
      modifies this, readBuff
      ensures Valid() && Got(n, data, View()) == Frames.Read(recv, old(View()), size)
    {
      if readBuffOff < readBuffContentSize {
        n := Least(size, readBuffContentSize - readBuffOff);
        data := HandOut(n);
        return;
      }
      readBuffOff, readBuffContentSize := 0, 0;
      assert View() == old(View());
      hide Recv;
      if size < MAX_BUFF_SIZE {
        n := Fill();
        data := "";
        if n > 0 {
          n := Least(n, size);
          data := HandOut(n);
        }
      } else {
        n, data := ReadSocket(size);
      }
    }
  }

  /** ReadBuf: reads until `end - start` more bytes have been appended. */
  method ReadBuf(start: int, end: int, stream: SocketStream) returns (ok: bool, msg: string)
    requires stream.Valid()
    modifies stream, stream.readBuff
    ensures stream.Valid()
    ensures Bytes(ok, msg, stream.View()) == Frames.ReadBuf(stream.recv, old(stream.View()), Span(start, end))
  {
    var at := start;
    msg := "";
    ghost var goal := Frames.ReadBuf(stream.recv, stream.View(), Span(start, end));
    UnderwayStarts(stream.recv, stream.View(), Span(start, end));
    hide Underway;
    hide Frames.ReadBuf;
    hide Frames.Read;
    while at < end
      invariant stream.Valid() && (start <= at <= end || at == start)
      invariant Underway(stream.recv, goal, msg, stream.View(), Span(at, end))
    {
      var readLen := end - at;
      UnderwayStep(stream.recv, goal, msg, stream.View(), readLen);
      var n, data := stream.Read(Least(readLen, MAX_RECV_BUFF_SIZE));
      if n <= 0 {
        return false, msg;
      }
      msg := msg + data;
      at := at + n;
    }
    UnderwayEnds(stream.recv, goal, msg, stream.View());
    ok := true;
  }

  /**
   * RecvMessage, up to decoding: the texts of the header and of the message. Lengths beyond an int wrap around; only
   * a body whose end minus start overflows an int is excluded, where the source's behaviour is undefined.
   */
  method RecvMessage(stream: SocketStream) returns (ok: bool, header: string, message: string)
    requires stream.Valid()
    requires var (total, headLen) := Lengths(Frames.Read(stream.recv, stream.View(), PREFIX).data);
             ToInt(total) - ToInt(HeaderEnd(headLen)) < 0x8000_0000
    modifies stream, stream.readBuff
    ensures stream.Valid()
    ensures Received(ok, header, message, stream.View()) == Frames.RecvMessage(stream.recv, old(stream.View()))
  {
    hide Frames.ReadBuf;
    header, message := "", "";
    var n, buf := stream.Read(PREFIX);
    if n <= 0 {
      return false, header, message;
    }
    var (totLength, headerLength) := Lengths(buf);
    var headerEnd := HeaderEnd(headerLength);
    ok, header := ReadBuf(PREFIX, ToInt(headerEnd), stream);
    if !ok {
      return;
    }
    var bodyStart, bodyEnd := ToInt(headerEnd), ToInt(totLength);
    ok, message := ReadBuf(bodyStart, bodyEnd, stream);
  }
}
