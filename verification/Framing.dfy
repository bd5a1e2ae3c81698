/** A TCP connection: buffers that partial sends and receives grow and consume, and
    what any interleaving of them delivers. */
module Framing {
  import opened Bytes
  import opened FramingFormat
  import opened Options

  /** How the socket answers: a send takes some bytes, a receive yields some; either
      may have to wait, or fail. A receive of no bytes means the peer closed. */
  datatype SendReply = Took(n: nat) | SendWaits | SendFails

  datatype ReadReply = Data(bytes: seq<byte>) | ReadWaits | ReadFails

  /** The bytes a read loop collects; None where it disconnects. */
  function Arrived(replies: seq<ReadReply>): Option<seq<byte>> {
    if replies == [] || replies[0].ReadWaits? then Some([])
    else if replies[0].ReadFails? || replies[0].bytes == [] then None
    else
      var more := Arrived(replies[1..]);
      if more.Some? then Some(replies[0].bytes + more.value) else None
  }

  class TcpConnection<M(!new)> {
    const codec: Codec<M>
    var connected: bool
    var readBuffer: seq<byte>
    var writeBuffer: seq<byte>

    constructor (codec: Codec<M>)
      ensures this.codec == codec && connected && readBuffer == [] && writeBuffer == []
    {
      this.codec, connected, readBuffer, writeBuffer := codec, true, [], [];
    }

    method Disconnect()
      modifies this
      ensures !connected && readBuffer == [] && writeBuffer == []
    {
      writeBuffer := [];
      readBuffer := [];
      connected := false;
    }

    // -------------------------------------------------------------------- sending

    /** Nothing of the buffer is lost or repeated: what the socket took, and what
        stays, is the frame behind what was there. */
    method Send(m: M, replies: seq<SendReply>) returns (ok: bool, out: seq<byte>)
      requires connected
      modifies this
      ensures ok <==> Sendable(codec, m)
      ensures connected ==> out + writeBuffer == old(writeBuffer) + (if ok then Frame(codec, m) else []) && readBuffer == old(readBuffer)
      ensures out <= old(writeBuffer) + (if ok then Frame(codec, m) else [])
    {
      var data := codec.encode(m);
      if |data| >= MAX_LENGTH {
        return false, [];
      }
      writeBuffer := writeBuffer + (Pack(|data|, 4) + data);
      out := TrySendBuffer(replies);
      ok := true;
    }

    method TrySendBuffer(replies: seq<SendReply>) returns (out: seq<byte>)
      requires connected
      modifies this
      ensures connected ==> out + writeBuffer == old(writeBuffer) && readBuffer == old(readBuffer)
      ensures out <= old(writeBuffer)
    {
      out := [];
      var i, more := 0, true;
      while more && i < |replies|
        invariant more ==> connected
        invariant out <= old(writeBuffer)
        invariant connected ==> out + writeBuffer == old(writeBuffer) && readBuffer == old(readBuffer)
        decreases |replies| - i
      {
        var some;
        more, some := ProcessSend(replies[i]);
        out := out + some;
        i := i + 1;
      }
    }

    method ProcessSend(reply: SendReply) returns (more: bool, out: seq<byte>)
      requires connected
      modifies this
      ensures more ==> connected
      ensures out <= old(writeBuffer)
      ensures connected ==> out + writeBuffer == old(writeBuffer) && readBuffer == old(readBuffer)
    {
      more, out := false, [];
      if writeBuffer == [] {
        return;
      }
      match reply
      case SendWaits =>
      case SendFails => Disconnect();
      case Took(n) =>
        var res := if n < |writeBuffer| then n else |writeBuffer|;
        if res == 0 {
          return;
        }
        out := writeBuffer[..res];
        writeBuffer := writeBuffer[res..];
        more := true;
    }

    // ------------------------------------------------------------------ receiving

    method TryReadBuffer(replies: seq<ReadReply>)
      requires connected
      modifies this
      ensures connected <==> Arrived(replies).Some?
      ensures connected ==> readBuffer == old(readBuffer) + Arrived(replies).value && writeBuffer == old(writeBuffer)
    {
      var i := 0;
      assert replies[0..] == replies;
      while i < |replies|
        invariant i <= |replies| && connected && writeBuffer == old(writeBuffer)
        invariant Arrived(replies).Some? <==> Arrived(replies[i..]).Some?
        invariant Arrived(replies).Some? ==> old(readBuffer) + Arrived(replies).value == readBuffer + Arrived(replies[i..]).value
      {
        var reply := replies[i];
        assert replies[i..][1..] == replies[i + 1..];
        if reply.ReadWaits? {
          return;
        }
        if reply.ReadFails? || reply.bytes == [] {
          Disconnect();
          return;
        }
        readBuffer := readBuffer + reply.bytes;
        i := i + 1;
      }
    }

    method ProcessParseMessage() returns (message: Option<M>)
      requires connected
      modifies this
      ensures match ParseOne(codec, old(readBuffer))
              case Incomplete => message.None? && connected && readBuffer == old(readBuffer) && writeBuffer == old(writeBuffer)
              case Broken => message.None? && !connected
              case Got(m, rest) => message == Some(m) && connected && readBuffer == rest && writeBuffer == old(writeBuffer)
    {
      if |readBuffer| < 4 {
        return None;
      }
      var l := Signed(readBuffer[..4]);
      if |readBuffer| - 4 < l {
        return None;
      }
      message := codec.decode(PySlice(readBuffer, 4, 4 + l));
      if message.None? {
        Disconnect();
        return;
      }
      readBuffer := PySlice(readBuffer, 4 + l, |readBuffer|);
    }

    /** A read event: collect what the socket has, then parse until no complete
        message is left. */
    method OnReadable(replies: seq<ReadReply>) returns (delivered: seq<M>)
      requires connected && Lossless(codec)
      modifies this
      ensures Arrived(replies).None? ==> !connected && delivered == []
      ensures Arrived(replies).Some? ==>
                var (messages, left) := ParseAll(codec, old(readBuffer) + Arrived(replies).value);
                && delivered == messages && (connected <==> left.Some?)
                && (connected ==> readBuffer == left.value && writeBuffer == old(writeBuffer))
    {
      delivered := [];
      TryReadBuffer(replies);
      if !connected {
        return;
      }
      ghost var start := readBuffer;
      assert delivered + ParseAll(codec, readBuffer).0 == ParseAll(codec, readBuffer).0;
      while true
        invariant connected && writeBuffer == old(writeBuffer)
        invariant ParseAll(codec, start) == (delivered + ParseAll(codec, readBuffer).0, ParseAll(codec, readBuffer).1)
        decreases |readBuffer|
      {
        ghost var before := readBuffer;
        var message := ProcessParseMessage();
        if message.None? {
          assert delivered + [] == delivered;
          break;
        }
        ParseShrinks(codec, before);
        ghost var more := ParseAll(codec, readBuffer).0;
        assert delivered + ([message.value] + more) == delivered + [message.value] + more;
        delivered := delivered + [message.value];
      }
    }
  }

  // ------------------------------------------------------------------------ runs

  /** One direction of a connection: the sender's buffer, the bytes on the way, the
      receiver's buffer. */
  datatype Link<M> = Link(sent: seq<M>, outgoing: seq<byte>, wire: seq<byte>, incoming: seq<byte>, delivered: seq<M>)

  datatype Event<M> = Send(m: M) | Write(n: nat) | Read(n: nat) | Parse

  ghost function After<M(!new)>(c: Codec<M>, l: Link<M>, e: Event<M>): Link<M>
    requires Lossless(c)
  {
    match e
    case Send(m) =>
      if Sendable(c, m) then l.(sent := l.sent + [m], outgoing := l.outgoing + Frame(c, m)) else l
    case Write(n) =>
      var k := if n < |l.outgoing| then n else |l.outgoing|;
      l.(outgoing := l.outgoing[k..], wire := l.wire + l.outgoing[..k])
    case Read(n) =>
      var k := if n < |l.wire| then n else |l.wire|;
      l.(wire := l.wire[k..], incoming := l.incoming + l.wire[..k])
    case Parse =>
      var (messages, left) := ParseAll(c, l.incoming);
      l.(delivered := l.delivered + messages, incoming := if left.Some? then left.value else [])
  }

  ghost function AfterAll<M(!new)>(c: Codec<M>, events: seq<Event<M>>): Link<M>
    requires Lossless(c)
    decreases |events|
  {
    if events == [] then Link([], [], [], [], [])
    else After(c, AfterAll(c, events[..|events| - 1]), events[|events| - 1])
  }

  /** The bytes in the buffers and on the way are the frames of exactly those
      messages that were sent and not delivered. */
  ghost predicate InOrder<M(!new)>(c: Codec<M>, l: Link<M>) {
    && AllSendable(c, l.sent) && l.delivered <= l.sent
    && (l.incoming + l.wire) + l.outgoing == Stream(c, l.sent[|l.delivered|..])
  }

  lemma SendInOrder<M(!new)>(c: Codec<M>, l: Link<M>, m: M)
    requires Lossless(c) && InOrder(c, l) && Sendable(c, m)
    ensures InOrder(c, After(c, l, Send(m)))
  {
    var n := |l.delivered|;
    StreamSplit(c, l.sent[n..], [m]);
    assert (l.sent + [m])[n..] == l.sent[n..] + [m];
    assert Stream(c, [m]) == Frame(c, m) + Stream(c, [m][1..]) == Frame(c, m);
    assert (l.incoming + l.wire) + (l.outgoing + Frame(c, m)) == ((l.incoming + l.wire) + l.outgoing) + Frame(c, m);
  }

  lemma WriteInOrder<M(!new)>(c: Codec<M>, l: Link<M>, n: nat)
    requires Lossless(c) && InOrder(c, l)
    ensures InOrder(c, After(c, l, Write(n)))
  {
    var k := if n < |l.outgoing| then n else |l.outgoing|;
    assert l.outgoing == l.outgoing[..k] + l.outgoing[k..];
    assert (l.incoming + (l.wire + l.outgoing[..k])) + l.outgoing[k..] == (l.incoming + l.wire) + l.outgoing;
  }

  lemma ReadInOrder<M(!new)>(c: Codec<M>, l: Link<M>, n: nat)
    requires Lossless(c) && InOrder(c, l)
    ensures InOrder(c, After(c, l, Read(n)))
  {
    var k := if n < |l.wire| then n else |l.wire|;
    assert l.wire == l.wire[..k] + l.wire[k..];
    assert ((l.incoming + l.wire[..k]) + l.wire[k..]) == l.incoming + l.wire;
  }

  lemma ParseInOrder<M(!new)>(c: Codec<M>, l: Link<M>)
    requires Lossless(c) && InOrder(c, l)
    ensures InOrder(c, After(c, l, Parse)) && ParseAll(c, l.incoming).1.Some?
    ensures l.wire == [] && l.outgoing == [] ==> After(c, l, Parse).delivered == l.sent && After(c, l, Parse).incoming == []
  {
    assert l.incoming + (l.wire + l.outgoing) == (l.incoming + l.wire) + l.outgoing;
    var k := ParseArrived(c, l.incoming, l.wire + l.outgoing, l.sent[|l.delivered|..]);
    var (messages, left) := ParseAll(c, l.incoming);
    MoveDelivered(c, l, messages, left.value, k);
  }

  lemma MoveDelivered<M(!new)>(c: Codec<M>, l: Link<M>, messages: seq<M>, left: seq<byte>, k: nat)
    requires AllSendable(c, l.sent) && l.delivered <= l.sent && k <= |l.sent| - |l.delivered|
    requires messages == l.sent[|l.delivered|..][..k]
    requires left + (l.wire + l.outgoing) == Stream(c, l.sent[|l.delivered|..][k..])
    ensures InOrder(c, l.(delivered := l.delivered + messages, incoming := left))
    ensures k == |l.sent| - |l.delivered| ==> l.delivered + messages == l.sent
  {
    var n := |l.delivered|;
    assert l.sent[n..][k..] == l.sent[n + k..];
    assert l.delivered + messages == l.sent[..n + k];
    assert (left + l.wire) + l.outgoing == left + (l.wire + l.outgoing);
  }

  lemma {:induction false} RunInOrder<M(!new)>(c: Codec<M>, events: seq<Event<M>>)
    requires Lossless(c)
    ensures InOrder(c, AfterAll(c, events))
    decreases |events|
  {
    if events != [] {
      var l := AfterAll(c, events[..|events| - 1]);
      RunInOrder(c, events[..|events| - 1]);
      match events[|events| - 1]
      case Send(m) => if Sendable(c, m) { SendInOrder(c, l, m); }
      case Write(n) => WriteInOrder(c, l, n);
      case Read(n) => ReadInOrder(c, l, n);
      case Parse => ParseInOrder(c, l);
    }
  }

  /** Under any interleaving of sends, partial writes, partial reads and parses, the
      delivered messages are a prefix of the sent ones and no parse ever breaks; and
      a parse that finds everything arrived delivers them all. */
  lemma DeliveredIsPrefix<M(!new)>(c: Codec<M>, events: seq<Event<M>>)
    requires Lossless(c)
    ensures var l := AfterAll(c, events);
            && l.delivered <= l.sent
            && ParseAll(c, l.incoming).1.Some?
            && (l.wire == [] && l.outgoing == [] ==> After(c, l, Parse).delivered == l.sent && After(c, l, Parse).incoming == [])
            && (l.incoming == [] && l.wire == [] && l.outgoing == [] ==> l.delivered == l.sent)
  {
    RunInOrder(c, events);
    var l := AfterAll(c, events);
    ParseInOrder(c, l);
    if l.incoming == [] && l.wire == [] && l.outgoing == [] {
      var due := l.sent[|l.delivered|..];
      assert Stream(c, due) == [];
      assert due == [];
      assert l.sent == l.delivered + due;
    }
  }
}
