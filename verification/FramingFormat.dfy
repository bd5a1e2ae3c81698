/** Messages on a byte stream: each goes out behind its length, and the reader
    finds them again however the bytes were cut. */
module FramingFormat {
  import opened Bytes
  import opened Options

  const MAX_LENGTH := 0x8000_0000

  /** Compressing and pickling, with encryption and the random key where they are
      in use; decoding may raise. */
  datatype Codec<!M> = Codec(encode: M -> seq<byte>, decode: seq<byte> -> Option<M>)

  /** Decoding undoes encoding, and no bytes at all are no message. */
  ghost predicate Lossless<M(!new)>(c: Codec<M>) {
    c.decode([]).None? && forall m :: c.decode(c.encode(m)) == Some(m)
  }

  /** The length goes into a signed field of four bytes. */
  predicate Sendable<M>(c: Codec<M>, m: M) {
    |c.encode(m)| < MAX_LENGTH
  }

  function Frame<M>(c: Codec<M>, m: M): (f: seq<byte>)
    ensures |f| == 4 + |c.encode(m)|
  {
    Pack(|c.encode(m)|, 4) + c.encode(m)
  }

  function Stream<M>(c: Codec<M>, ms: seq<M>): seq<byte> {
    if ms == [] then [] else Frame(c, ms[0]) + Stream(c, ms[1..])
  }

  ghost predicate AllSendable<M>(c: Codec<M>, ms: seq<M>) {
    forall i :: 0 <= i < |ms| ==> Sendable(c, ms[i])
  }

  // -------------------------------------------------------------------- parsing

  function Signed(bytes: seq<byte>): int {
    var n := Unpack(bytes);
    if n < MAX_LENGTH then n else n - 2 * MAX_LENGTH
  }

  /** Slice bounds as Python takes them: negative ones count from the end. */
  function Bound(size: nat, i: int): (b: nat)
    ensures b <= size
  {
    if i < 0 then (if size + i < 0 then 0 else size + i) else if i > size then size else i
  }

  function PySlice(s: seq<byte>, lo: int, hi: int): seq<byte> {
    var a, b := Bound(|s|, lo), Bound(|s|, hi);
    if a < b then s[a..b] else []
  }

  datatype Parsed<M> = Incomplete | Broken | Got(message: M, rest: seq<byte>)

  function ParseOne<M>(c: Codec<M>, buffer: seq<byte>): Parsed<M> {
    if |buffer| < 4 then Incomplete
    else
      var l := Signed(buffer[..4]);
      if |buffer| - 4 < l then Incomplete
      else
        match c.decode(PySlice(buffer, 4, 4 + l))
        case None => Broken
        case Some(m) => Got(m, PySlice(buffer, 4 + l, |buffer|))
  }

  /** Even a negative length, which no sender writes, cannot make the parse loop
      run for ever. */
  lemma ParseShrinks<M(!new)>(c: Codec<M>, buffer: seq<byte>)
    requires Lossless(c) && ParseOne(c, buffer).Got?
    ensures |ParseOne(c, buffer).rest| < |buffer|
  {
    var l := Signed(buffer[..4]);
    if l < 0 {
      assert PySlice(buffer, 4, 4 + l) != [];
    }
  }

  /** The messages the parse loop finds, and what stays in the buffer; None where
      decoding raises. */
  ghost function ParseAll<M(!new)>(c: Codec<M>, buffer: seq<byte>): (r: (seq<M>, Option<seq<byte>>))
    requires Lossless(c)
    decreases |buffer|
  {
    match ParseOne(c, buffer)
    case Incomplete => ([], Some(buffer))
    case Broken => ([], None)
    case Got(m, rest) =>
      ParseShrinks(c, buffer);
      var (more, left) := ParseAll(c, rest);
      ([m] + more, left)
  }

  lemma SignedLength(n: nat)
    requires n < MAX_LENGTH
    ensures Signed(Pack(n, 4)) == n
  {
    assert Range(1) == 256 && Range(2) == 0x1_0000 && Range(3) == 0x100_0000 && Range(4) == 0x1_0000_0000;
    UnpackPack(n, 4);
  }

  lemma ParseFrame<M(!new)>(c: Codec<M>, m: M, rest: seq<byte>)
    requires Lossless(c) && Sendable(c, m)
    ensures ParseOne(c, Frame(c, m) + rest) == Got(m, rest)
  {
    var e, buffer := c.encode(m), Frame(c, m) + rest;
    SignedLength(|e|);
    assert buffer[..4] == Pack(|e|, 4);
    assert buffer[4..4 + |e|] == e;
    assert buffer[4 + |e|..] == rest;
    assert c.decode(e) == Some(m);
  }

  lemma ParsePartial<M>(c: Codec<M>, m: M, rest: seq<byte>, n: nat)
    requires Sendable(c, m) && n < |Frame(c, m)|
    ensures ParseOne(c, (Frame(c, m) + rest)[..n]) == Incomplete
  {
    var buffer := (Frame(c, m) + rest)[..n];
    if n >= 4 {
      SignedLength(|c.encode(m)|);
      assert buffer[..4] == Pack(|c.encode(m)|, 4);
    }
  }

  lemma {:induction false} StreamSplit<M>(c: Codec<M>, a: seq<M>, b: seq<M>)
    ensures Stream(c, a + b) == Stream(c, a) + Stream(c, b)
  {
    if a == [] {
      assert a + b == b;
    } else {
      StreamSplit(c, a[1..], b);
      assert (a + b)[1..] == a[1..] + b;
      assert Frame(c, a[0]) + (Stream(c, a[1..]) + Stream(c, b)) == (Frame(c, a[0]) + Stream(c, a[1..])) + Stream(c, b);
    }
  }

  /** From any part of a stream of messages that has arrived, the parse loop takes
      the messages that are complete, and leaves what belongs to the next. */
  lemma {:induction false} ParseArrived<M(!new)>(c: Codec<M>, buffer: seq<byte>, pending: seq<byte>, ms: seq<M>) returns (k: nat)
    requires Lossless(c) && AllSendable(c, ms) && buffer + pending == Stream(c, ms)
    ensures k <= |ms|
    ensures ParseAll(c, buffer).0 == ms[..k] && ParseAll(c, buffer).1.Some?
    ensures ParseAll(c, buffer).1.value + pending == Stream(c, ms[k..])
    ensures pending == [] ==> k == |ms| && ParseAll(c, buffer).1.value == []
    decreases |ms|, 1
  {
    k := 0;
    if ms == [] {
      assert buffer == [] && pending == [];
    } else if |buffer| < |Frame(c, ms[0])| {
      assert buffer == (Frame(c, ms[0]) + Stream(c, ms[1..]))[..|buffer|] by {
        assert buffer == (buffer + pending)[..|buffer|];
      }
      ParsePartial(c, ms[0], Stream(c, ms[1..]), |buffer|);
      assert ms[0..] == ms;
    } else {
      k := TakeFrame(c, buffer, pending, ms);
    }
  }

  lemma {:induction false} TakeFrame<M(!new)>(c: Codec<M>, buffer: seq<byte>, pending: seq<byte>, ms: seq<M>) returns (k: nat)
    requires Lossless(c) && AllSendable(c, ms) && buffer + pending == Stream(c, ms)
    requires ms != [] && |buffer| >= |Frame(c, ms[0])|
    ensures k <= |ms|
    ensures ParseAll(c, buffer).0 == ms[..k] && ParseAll(c, buffer).1.Some?
    ensures ParseAll(c, buffer).1.value + pending == Stream(c, ms[k..])
    ensures pending == [] ==> k == |ms| && ParseAll(c, buffer).1.value == []
    decreases |ms|, 0
  {
    var n := |Frame(c, ms[0])|;
    var rest := buffer[n..];
    assert buffer[..n] == (buffer + pending)[..n] == Frame(c, ms[0]);
    assert buffer == Frame(c, ms[0]) + rest;
    assert rest + pending == (buffer + pending)[n..] == Stream(c, ms[1..]);
    ParseFrame(c, ms[0], rest);
    var j := ParseArrived(c, rest, pending, ms[1..]);
    k := j + 1;
    assert [ms[0]] + ms[1..][..j] == ms[..k] && ms[1..][j..] == ms[k..];
  }
}
