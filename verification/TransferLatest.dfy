/** Which snapshot a transfer delivers: the one that was taken last, told from the
    events alone. */
module TransferLatest {
  import opened Bytes
  import opened Options
  import opened Transfer

  /** A snapshot was asked for, and its completion was not checked yet. */
  predicate Unchecked(events: seq<Event>)
    decreases |events|
  {
    events != [] &&
    match events[|events| - 1]
    case Serialize(_) => true
    case Check => false
    case Request(_) => Unchecked(events[..|events| - 1])
    case Cancel(_) => Unchecked(events[..|events| - 1])
    case Deliver => Unchecked(events[..|events| - 1])
  }

  /** The last snapshot that was asked for while none was unchecked. */
  function Latest(events: seq<Event>): Option<seq<byte>>
    decreases |events|
  {
    if events == [] then None
    else
      var before, e := events[..|events| - 1], events[|events| - 1];
      if e.Serialize? && !Unchecked(before) then Some(e.data) else Latest(before)
  }

  /** The sender holds the latest snapshot, and while none is unchecked, every transfer
      under way is of it. */
  ghost predicate HoldsLatest(s: Sender, events: seq<Event>) {
    && (s.progress.Taken? <==> Unchecked(events)) && s.memory == Latest(events)
    && (s.progress.Ready? ==> forall p :: p in s.transmissions ==> Some(s.transmissions[p].data) == s.memory)
  }

  lemma {:induction false} LatestHeld(me: PeerId, batch: nat, events: seq<Event>)
    requires batch > 0
    ensures HoldsLatest(AfterAll(me, batch, events).sender, events)
    decreases |events|
  {
    if events != [] {
      LatestHeld(me, batch, events[..|events| - 1]);
      match events[|events| - 1]
      case Serialize(_) =>
      case Check =>
      case Request(_) =>
      case Cancel(_) =>
      case Deliver =>
    }
  }

  // ------------------------------------------------------------ asking to the end

  function Repeat(e: Event, n: nat): seq<Event> {
    seq(n, _ => e)
  }

  ghost function AfterMany(w: World, me: PeerId, batch: nat, e: Event, n: nat): World {
    if n == 0 then w else After(AfterMany(w, me, batch, e, n - 1), me, batch, e)
  }

  lemma {:induction false} RepeatAfter(me: PeerId, batch: nat, events: seq<Event>, e: Event, n: nat)
    ensures AfterAll(me, batch, events + Repeat(e, n)) == AfterMany(AfterAll(me, batch, events), me, batch, e, n)
  {
    var all := events + Repeat(e, n);
    if n == 0 {
      assert all == events;
    } else {
      RepeatAfter(me, batch, events, e, n - 1);
      assert all[..|all| - 1] == events + Repeat(e, n - 1) && all[|all| - 1] == e;
    }
  }

  /** Requests from the front are requests from the back. */
  lemma {:induction false} RequestedMore(s: Sender, peer: PeerId, batch: nat, n: nat)
    ensures var (t, chunks) := RequestedAll(s, peer, batch, n);
            var (u, chunk) := Requested(t, peer, batch);
            RequestedAll(s, peer, batch, n + 1) == (u, chunks + [chunk])
    decreases n
  {
    if n == 0 {
      var (u, chunk) := Requested(s, peer, batch);
      assert RequestedAll(u, peer, batch, 0) == (u, []);
      assert [chunk] + [] == [] + [chunk];
    } else {
      var (next, first) := Requested(s, peer, batch);
      RequestedMore(next, peer, batch, n - 1);
      var (t, chunks) := RequestedAll(next, peer, batch, n - 1);
      var (u, chunk) := Requested(t, peer, batch);
      assert ([first] + chunks) + [chunk] == [first] + (chunks + [chunk]);
    }
  }

  /** The state once the receiver has made n requests in w. */
  ghost function AskedFor(w: World, me: PeerId, batch: nat, n: nat): World {
    var (s, chunks) := RequestedAll(w.sender, me, batch, n);
    w.(sender := s, link := w.link + chunks)
  }

  lemma AskedForMore(w: World, me: PeerId, batch: nat, n: nat)
    ensures After(AskedFor(w, me, batch, n), me, batch, Request(me)) == AskedFor(w, me, batch, n + 1)
  {
    RequestedMore(w.sender, me, batch, n);
    var (s, chunks) := RequestedAll(w.sender, me, batch, n);
    var chunk := Requested(s, me, batch).1;
    assert (w.link + chunks) + [chunk] == w.link + (chunks + [chunk]);
  }

  /** Requests of the receiver put their chunks on the link. */
  lemma {:induction false} RequestsOnLink(w: World, me: PeerId, batch: nat, n: nat)
    ensures AfterMany(w, me, batch, Request(me), n) == AskedFor(w, me, batch, n)
  {
    if n == 0 {
      assert w.link + [] == w.link;
    } else {
      RequestsOnLink(w, me, batch, n - 1);
      AskedForMore(w, me, batch, n - 1);
    }
  }

  /** The state once n chunks have arrived. */
  ghost function Arrived(w: World, n: nat): World
    requires n <= |w.link|
  {
    var (left, done) := Consumed(w.incoming, w.link[..n]);
    w.(link := w.link[n..], incoming := left, installed := w.installed + done)
  }

  lemma ArrivedMore(w: World, me: PeerId, batch: nat, n: nat)
    requires n < |w.link|
    ensures After(Arrived(w, n), me, batch, Deliver) == Arrived(w, n + 1)
  {
    ConsumedNext(w.incoming, w.link[..n], w.link[n]);
    assert w.link[..n] + [w.link[n]] == w.link[..n + 1];
    assert w.link[n..][0] == w.link[n] && w.link[n..][1..] == w.link[n + 1..];
    var (before, done) := Consumed(w.incoming, w.link[..n]);
    var whole := Taking(before, w.link[n]).1;
    var last := if whole.Some? then [whole.value] else [];
    assert (w.installed + done) + last == w.installed + (done + last);
  }

  /** Deliveries empty the link, a chunk at a time. */
  lemma {:induction false} DeliveriesConsume(w: World, me: PeerId, batch: nat, n: nat)
    requires n <= |w.link|
    ensures AfterMany(w, me, batch, Deliver, n) == Arrived(w, n)
  {
    if n == 0 {
      assert w.link[..0] == [] && w.link[0..] == w.link;
      assert w.installed + [] == w.installed;
    } else {
      DeliveriesConsume(w, me, batch, n - 1);
      ArrivedMore(w, me, batch, n - 1);
    }
  }

  lemma {:induction false} ConsumedJoined(incoming: Option<seq<byte>>, a: seq<Option<Chunk>>, b: seq<Option<Chunk>>)
    ensures var (mid, done) := Consumed(incoming, a);
            var (left, more) := Consumed(mid, b);
            Consumed(incoming, a + b) == (left, done + more)
    decreases |b|
  {
    if b == [] {
      assert a + b == a;
      var done := Consumed(incoming, a).1;
      assert done + [] == done;
    } else {
      var n := |b| - 1;
      ConsumedJoined(incoming, a, b[..n]);
      assert (a + b)[..|a| + n] == a + b[..n];
      var (mid, done) := Consumed(incoming, a);
      var (before, more) := Consumed(mid, b[..n]);
      var whole := Taking(before, b[n]).1;
      var last := if whole.Some? then [whole.value] else [];
      assert (done + more) + last == done + (more + last);
    }
  }

  /** What the receiver asks for next in a run whose latest snapshot was checked. */
  lemma AsksForLatest(me: PeerId, batch: nat, events: seq<Event>, data: seq<byte>)
    requires batch > 0 && !Unchecked(events) && Latest(events) == Some(data)
    ensures var w := AfterAll(me, batch, events);
            var t := Current(w.sender, me);
            && w.sender.progress.Ready? && t.Some? && t.value.data == data && t.value.transmitted <= |data|
            && (t.value.transmitted > 0 ==> Consumed(w.incoming, w.link).0 == Some(data[..t.value.transmitted]))
  {
    LatestHeld(me, batch, events);
    RunFaithful(me, batch, events);
  }

  /** The chunks that the receiver still has to ask for. */
  ghost function ChunksLeft(me: PeerId, batch: nat, events: seq<Event>, data: seq<byte>): nat
    requires batch > 0 && !Unchecked(events) && Latest(events) == Some(data)
  {
    AsksForLatest(me, batch, events, data);
    |Chunks(Current(AfterAll(me, batch, events).sender, me).value, batch)|
  }

  /** Whatever happened before, transfers broken off among it: once the latest snapshot
      was checked, a receiver that asks for all the chunks that are left, no more than
      the snapshot has and one for its end, has installed that snapshot when all of them
      arrive, and installed it last. */
  lemma LatestArrives(me: PeerId, batch: nat, events: seq<Event>, data: seq<byte>)
    requires batch > 0 && !Unchecked(events) && Latest(events) == Some(data)
    ensures var n := ChunksLeft(me, batch, events, data);
            var k := |AfterAll(me, batch, events).link| + n;
            var end := AfterAll(me, batch, events + Repeat(Request(me), n) + Repeat(Deliver, k));
            && Times(n - 2, batch) < |data|
            && end.link == [] && end.installed != [] && end.installed[|end.installed| - 1] == data
  {
    var n := ChunksLeft(me, batch, events, data);
    FewChunks(me, batch, events, data);
    AskedForAll(me, batch, events, data);
    AllDelivered(me, batch, events + Repeat(Request(me), n));
  }

  lemma FewChunks(me: PeerId, batch: nat, events: seq<Event>, data: seq<byte>)
    requires batch > 0 && !Unchecked(events) && Latest(events) == Some(data)
    ensures Times(ChunksLeft(me, batch, events, data) - 2, batch) < |data|
  {
    AsksForLatest(me, batch, events, data);
    FewLeft(Current(AfterAll(me, batch, events).sender, me).value, batch);
  }

  lemma FewLeft(t: Transmission, batch: nat)
    requires batch > 0 && t.transmitted <= |t.data|
    ensures Times(|Chunks(t, batch)| - 2, batch) < |t.data|
  {
    CallsToFinish(t, batch);
  }

  /** Once they are asked for, what is on the link ends with the snapshot. */
  lemma AskedForAll(me: PeerId, batch: nat, events: seq<Event>, data: seq<byte>)
    requires batch > 0 && !Unchecked(events) && Latest(events) == Some(data)
    ensures var w := AfterAll(me, batch, events);
            var n := ChunksLeft(me, batch, events, data);
            var mid := AfterAll(me, batch, events + Repeat(Request(me), n));
            && |mid.link| == |w.link| + n
            && Consumed(mid.incoming, mid.link) == (None, Consumed(w.incoming, w.link).1 + [data])
  {
    AsksForLatest(me, batch, events, data);
    var w := AfterAll(me, batch, events);
    var t := Current(w.sender, me).value;
    RequestsGiveChunks(w.sender, me, batch);
    RepeatAfter(me, batch, events, Request(me), |Chunks(t, batch)|);
    RequestsOnLink(w, me, batch, |Chunks(t, batch)|);
    Installs(w.incoming, w.link, t, batch);
  }

  lemma AllDelivered(me: PeerId, batch: nat, events: seq<Event>)
    ensures var w := AfterAll(me, batch, events);
            var end := AfterAll(me, batch, events + Repeat(Deliver, |w.link|));
            end.link == [] && end.installed == w.installed + Consumed(w.incoming, w.link).1
  {
    var w := AfterAll(me, batch, events);
    RepeatAfter(me, batch, events, Deliver, |w.link|);
    DeliveriesConsume(w, me, batch, |w.link|);
    assert w.link[..|w.link|] == w.link;
  }

  lemma Installs(incoming: Option<seq<byte>>, link: seq<Option<Chunk>>, t: Transmission, batch: nat)
    requires batch > 0 && t.transmitted <= |t.data|
    requires t.transmitted > 0 ==> Consumed(incoming, link).0 == Some(t.data[..t.transmitted])
    ensures Consumed(incoming, link + Chunks(t, batch)) == (None, Consumed(incoming, link).1 + [t.data])
  {
    TransferCompletes(Consumed(incoming, link).0, t, batch);
    ConsumedJoined(incoming, link, Chunks(t, batch));
  }
}
