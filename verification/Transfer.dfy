/** Snapshots held in memory and sent to lagging nodes chunk by chunk. */
module Transfer {
  import opened Bytes
  import opened Options

  type PeerId = nat

  datatype Chunk = Chunk(data: seq<byte>, isFirst: bool, isLast: bool)

  /** One transfer keeps its own reference to the snapshot it started with. */
  datatype Transmission = Transmission(transmitted: nat, data: seq<byte>)

  /** Whether a snapshot was taken and not yet noticed by the check. */
  datatype Progress = Ready | Taken

  datatype Sender = Sender(progress: Progress, transmissions: map<PeerId, Transmission>, memory: Option<seq<byte>>)

  datatype CheckResult = NotSerializing | Succeeded(id: nat)

  function Piece(data: seq<byte>, from: nat, size: nat): seq<byte> {
    if from >= |data| then [] else if from + size > |data| then data[from..] else data[from..from + size]
  }

  function ChunkOf(t: Transmission, batch: nat): Chunk {
    var piece := Piece(t.data, t.transmitted, batch);
    Chunk(piece, t.transmitted == 0, piece == [])
  }

  function Moved(t: Transmission, batch: nat): Transmission {
    t.(transmitted := t.transmitted + |Piece(t.data, t.transmitted, batch)|)
  }

  /** The transfer that the next request of a peer continues or starts. */
  function Current(s: Sender, peer: PeerId): Option<Transmission> {
    if peer in s.transmissions then Some(s.transmissions[peer])
    else if s.memory.Some? then Some(Transmission(0, s.memory.value))
    else None
  }

  function Requested(s: Sender, peer: PeerId, batch: nat): (Sender, Option<Chunk>) {
    var t := Current(s, peer);
    if s.progress.Taken? || t.None? then (s, None)
    else
      var c := ChunkOf(t.value, batch);
      (s.(transmissions := if c.isLast then s.transmissions - {peer} else s.transmissions[peer := Moved(t.value, batch)]),
       Some(c))
  }

  function Snapshot(s: Sender, data: seq<byte>): Sender {
    if s.progress.Taken? then s else s.(progress := Taken, memory := Some(data))
  }

  function Checked(s: Sender): Sender {
    if s.progress.Taken? then s.(progress := Ready, transmissions := map[]) else s
  }

  /** What a chunk does to the buffer of the receiver, and the snapshot it
      completes. */
  function Taking(incoming: Option<seq<byte>>, chunk: Option<Chunk>): (Option<seq<byte>>, Option<seq<byte>>) {
    if chunk.None? || (!chunk.value.isFirst && incoming.None?) then (incoming, None)
    else
      var got := (if chunk.value.isFirst then [] else incoming.value) + chunk.value.data;
      if chunk.value.isLast then (None, Some(got)) else (Some(got), None)
  }

  class Serializer {
    const batch: nat
    var progress: Progress
    var currentID: nat
    var transmissions: map<PeerId, Transmission>
    var incoming: Option<seq<byte>>
    var memory: Option<seq<byte>>

    ghost function View(): Sender
      reads this
    {
      Sender(progress, transmissions, memory)
    }

    constructor (batch: nat)
      ensures this.batch == batch && View() == Sender(Ready, map[], None) && incoming == None
    {
      this.batch := batch;
      progress, currentID, transmissions, incoming, memory := Ready, 0, map[], None, None;
    }

    method CheckSerializing() returns (r: CheckResult)
      modifies this`progress, this`transmissions
      ensures View() == Checked(old(View()))
      ensures r == if old(progress).Taken? then Succeeded(currentID) else NotSerializing
    {
      if progress.Taken? {
        progress := Ready;
        transmissions := map[];
        return Succeeded(currentID);
      }
      return NotSerializing;
    }

    /** `data` is the compressed and pickled state. */
    method Serialize(data: seq<byte>, id: nat)
      modifies this`progress, this`currentID, this`memory
      ensures View() == Snapshot(old(View()), data)
      ensures currentID == if old(progress).Taken? then old(currentID) else id
    {
      if progress.Taken? {
        return;
      }
      currentID := id;
      memory := Some(data);
      progress := Taken;
    }

    method GetTransmissionData(peer: PeerId) returns (chunk: Option<Chunk>)
      modifies this`transmissions
      ensures (View(), chunk) == Requested(old(View()), peer, batch)
    {
      if progress.Taken? {
        return None;
      }
      var t;
      if peer in transmissions {
        t := transmissions[peer];
      } else {
        if memory.None? {
          return None;
        }
        t := Transmission(0, memory.value);
      }
      var isFirst := t.transmitted == 0;
      var data := Piece(t.data, t.transmitted, batch);
      t := t.(transmitted := t.transmitted + |data|);
      var isLast := |data| == 0;
      if isLast {
        transmissions := transmissions - {peer};
      } else {
        transmissions := transmissions[peer := t];
      }
      return Some(Chunk(data, isFirst, isLast));
    }

    method CancelTransmission(peer: PeerId)
      modifies this`transmissions
      ensures transmissions == old(transmissions) - {peer}
    {
      transmissions := transmissions - {peer};
    }

    method SetTransmissionData(chunk: Option<Chunk>) returns (complete: bool)
      modifies this`incoming, this`memory
      ensures var (left, whole) := Taking(old(incoming), chunk);
              && incoming == left && (complete <==> whole.Some?)
              && memory == if complete then whole else old(memory)
    {
      if chunk.None? {
        return false;
      }
      if chunk.value.isFirst {
        incoming := Some([]);
      } else if incoming.None? {
        return false;
      }
      incoming := Some(incoming.value + chunk.value.data);
      if chunk.value.isLast {
        memory := incoming;
        incoming := None;
        return true;
      }
      return false;
    }
  }

  // ------------------------------------------------------------------------ runs

  /** A receiver at the end of a first-in first-out link; `taken` lists the
      snapshots of the sender and `installed` those the receiver completed. */
  datatype World = World(
    sender: Sender,
    link: seq<Option<Chunk>>,
    incoming: Option<seq<byte>>,
    taken: set<seq<byte>>,
    installed: seq<seq<byte>>)

  datatype Event = Serialize(data: seq<byte>) | Check | Request(peer: PeerId) | Cancel(peer: PeerId) | Deliver

  const START := World(Sender(Ready, map[], None), [], None, {}, [])

  /** `me` is the receiver at the end of the link; other peers may transfer too. */
  function After(w: World, me: PeerId, batch: nat, e: Event): World {
    match e
    case Serialize(data) =>
      w.(sender := Snapshot(w.sender, data), taken := if w.sender.progress.Taken? then w.taken else w.taken + {data})
    case Check => w.(sender := Checked(w.sender))
    case Request(peer) =>
      var (s, chunk) := Requested(w.sender, peer, batch);
      w.(sender := s, link := if peer == me then w.link + [chunk] else w.link)
    case Cancel(peer) => w.(sender := w.sender.(transmissions := w.sender.transmissions - {peer}))
    case Deliver =>
      if w.link == [] then w
      else
        var (left, whole) := Taking(w.incoming, w.link[0]);
        w.(link := w.link[1..], incoming := left, installed := w.installed + if whole.Some? then [whole.value] else [])
  }

  function AfterAll(me: PeerId, batch: nat, events: seq<Event>): World
    decreases |events|
  {
    if events == [] then START
    else After(AfterAll(me, batch, events[..|events| - 1]), me, batch, events[|events| - 1])
  }

  /** The buffer and the completed snapshots once the whole link is delivered. */
  function Consumed(incoming: Option<seq<byte>>, link: seq<Option<Chunk>>): (Option<seq<byte>>, seq<seq<byte>>)
    decreases |link|
  {
    if link == [] then (incoming, [])
    else
      var (before, done) := Consumed(incoming, link[..|link| - 1]);
      var (left, whole) := Taking(before, link[|link| - 1]);
      (left, done + if whole.Some? then [whole.value] else [])
  }

  lemma ConsumedNext(incoming: Option<seq<byte>>, link: seq<Option<Chunk>>, c: Option<Chunk>)
    ensures var (before, done) := Consumed(incoming, link);
            var (left, whole) := Taking(before, c);
            Consumed(incoming, link + [c]) == (left, done + if whole.Some? then [whole.value] else [])
  {
    assert (link + [c])[..|link|] == link;
  }

  lemma {:induction false} ConsumedHead(incoming: Option<seq<byte>>, link: seq<Option<Chunk>>)
    requires link != []
    ensures var (left, whole) := Taking(incoming, link[0]);
            var (after, done) := Consumed(left, link[1..]);
            Consumed(incoming, link) == (after, (if whole.Some? then [whole.value] else []) + done)
    decreases |link|
  {
    var n := |link| - 1;
    if n == 0 {
      assert link[..n] == [] && link[1..] == [];
      var whole := Taking(incoming, link[0]).1;
      var first := if whole.Some? then [whole.value] else [];
      assert [] + first == first + [];
    } else {
      ConsumedHead(incoming, link[..n]);
      assert link[..n][1..] == link[1..][..n - 1] && link[1..][n - 1] == link[n];
      var (left, whole) := Taking(incoming, link[0]);
      var first := if whole.Some? then [whole.value] else [];
      var (before, done) := Consumed(left, link[1..][..n - 1]);
      var (after, last) := Taking(before, link[n]);
      assert (first + done) + (if last.Some? then [last.value] else []) == first + (done + if last.Some? then [last.value] else []);
    }
  }

  ghost predicate AllTaken(done: seq<seq<byte>>, taken: set<seq<byte>>) {
    forall i :: 0 <= i < |done| ==> done[i] in taken
  }

  /** Every transfer is of a snapshot that was taken, has sent something and has
      not sent its end; and once the link is delivered, the receiver holds what its
      transfer has sent so far. */
  ghost predicate Faithful(w: World, me: PeerId) {
    && SenderOk(w.sender, w.taken)
    && AllTaken(w.installed, w.taken)
    && AllTaken(Consumed(w.incoming, w.link).1, w.taken)
    && (me in w.sender.transmissions ==>
          var t := w.sender.transmissions[me]; Consumed(w.incoming, w.link).0 == Some(t.data[..t.transmitted]))
  }

  /** A request of another peer does not touch the link. */
  lemma OtherRequestFaithful(w: World, me: PeerId, batch: nat, peer: PeerId)
    requires Faithful(w, me) && batch > 0 && peer != me
    ensures Faithful(After(w, me, batch, Request(peer)), me)
  {
    SenderFaithful(w.sender, w.taken, batch, peer);
  }

  ghost predicate SenderOk(s: Sender, taken: set<seq<byte>>) {
    && (s.memory.Some? ==> s.memory.value in taken)
    && (forall p :: p in s.transmissions ==>
          var t := s.transmissions[p]; t.data in taken && 0 < t.transmitted <= |t.data|)
  }

  lemma SenderFaithful(s: Sender, taken: set<seq<byte>>, batch: nat, peer: PeerId)
    requires SenderOk(s, taken) && batch > 0
    ensures SenderOk(Requested(s, peer, batch).0, taken)
  {
    var t := Current(s, peer);
    if t.Some? {
      PieceExtends(t.value.data, t.value.transmitted, batch);
    }
  }

  lemma RequestFaithful(w: World, me: PeerId, batch: nat)
    requires Faithful(w, me) && batch > 0
    ensures Faithful(After(w, me, batch, Request(me)), me)
  {
    SenderFaithful(w.sender, w.taken, batch, me);
    var chunk := Requested(w.sender, me, batch).1;
    ConsumedNext(w.incoming, w.link, chunk);
    if chunk.Some? {
      ChunkContinues(Current(w.sender, me).value, batch, Consumed(w.incoming, w.link).0);
    }
  }

  /** A chunk extends what its transfer has sent so far, or completes it. */
  lemma ChunkContinues(t: Transmission, batch: nat, incoming: Option<seq<byte>>)
    requires batch > 0 && t.transmitted <= |t.data|
    requires t.transmitted > 0 ==> incoming == Some(t.data[..t.transmitted])
    ensures var c, next := ChunkOf(t, batch), Moved(t, batch);
            Taking(incoming, Some(c)) ==
              if c.isLast then (None, Some(t.data)) else (Some(next.data[..next.transmitted]), None)
  {
    PieceExtends(t.data, t.transmitted, batch);
    assert t.data[..0] == [];
    assert t.data[..|t.data|] == t.data;
    assert [] + Piece(t.data, 0, batch) == Piece(t.data, 0, batch);
    assert t.data + [] == t.data;
  }

  lemma PieceExtends(data: seq<byte>, from: nat, size: nat)
    requires from <= |data| && size > 0
    ensures from + |Piece(data, from, size)| <= |data|
    ensures data[..from] + Piece(data, from, size) == data[..from + |Piece(data, from, size)|]
    ensures Piece(data, from, size) == [] <==> from == |data|
  {
  }

  lemma DeliverFaithful(w: World, me: PeerId, batch: nat)
    requires Faithful(w, me) && w.link != []
    ensures Faithful(After(w, me, batch, Deliver), me)
  {
    ConsumedHead(w.incoming, w.link);
    var (left, whole) := Taking(w.incoming, w.link[0]);
    var done := Consumed(w.incoming, w.link).1;
    var rest := Consumed(left, w.link[1..]).1;
    assert whole.Some? ==> done[0] == whole.value && rest == done[1..];
    assert whole.None? ==> rest == done;
  }

  lemma {:induction false} RunFaithful(me: PeerId, batch: nat, events: seq<Event>)
    requires batch > 0
    ensures Faithful(AfterAll(me, batch, events), me)
    decreases |events|
  {
    if events != [] {
      var w := AfterAll(me, batch, events[..|events| - 1]);
      RunFaithful(me, batch, events[..|events| - 1]);
      match events[|events| - 1]
      case Serialize(_) =>
      case Check =>
      case Request(peer) =>
        if peer == me {
          RequestFaithful(w, me, batch);
        } else {
          OtherRequestFaithful(w, me, batch, peer);
        }
      case Cancel(_) =>
      case Deliver => if w.link != [] { DeliverFaithful(w, me, batch); }
    }
  }

  /** Under any interleaving of requests, cancellations, new snapshots and
      deliveries, whatever the receiver completes is one whole snapshot of the
      sender. */
  lemma InstalledIsSnapshot(me: PeerId, batch: nat, events: seq<Event>, i: nat)
    requires batch > 0 && i < |AfterAll(me, batch, events).installed|
    ensures AfterAll(me, batch, events).installed[i] in AfterAll(me, batch, events).taken
  {
    RunFaithful(me, batch, events);
  }

  // ----------------------------------------------------- one transfer, uninterrupted

  /** The chunks of a transfer that nothing interrupts. */
  function Chunks(t: Transmission, batch: nat): seq<Option<Chunk>>
    requires batch > 0 && t.transmitted <= |t.data|
    decreases |t.data| - t.transmitted
  {
    if Piece(t.data, t.transmitted, batch) == [] then [Some(ChunkOf(t, batch))]
    else
      PieceExtends(t.data, t.transmitted, batch);
      [Some(ChunkOf(t, batch))] + Chunks(Moved(t, batch), batch)
  }

  /** The calls it takes: one for every full or partial batch that is left, and one
      for the end. */
  lemma {:induction false} CallsToFinish(t: Transmission, batch: nat)
    requires batch > 0 && t.transmitted <= |t.data|
    ensures |Chunks(t, batch)| >= 1
    ensures Times(|Chunks(t, batch)| - 2, batch) < |t.data| - t.transmitted <= Times(|Chunks(t, batch)| - 1, batch)
    decreases |t.data| - t.transmitted
  {
    PieceExtends(t.data, t.transmitted, batch);
    if Piece(t.data, t.transmitted, batch) != [] {
      CallsToFinish(Moved(t, batch), batch);
      var calls := |Chunks(t, batch)|;
      assert |Chunks(Moved(t, batch), batch)| == calls - 1;
      TimesNext(calls - 3, batch);
      TimesNext(calls - 2, batch);
    }
  }

  function Times(n: int, batch: int): int {
    n * batch
  }

  lemma TimesNext(n: int, batch: int)
    ensures Times(n + 1, batch) == Times(n, batch) + batch
  {
  }

  /** Whatever was in its buffer, the receiver completes exactly that snapshot, at
      the last chunk. */
  lemma {:induction false} TransferCompletes(incoming: Option<seq<byte>>, t: Transmission, batch: nat)
    requires batch > 0 && t.transmitted <= |t.data|
    requires t.transmitted > 0 ==> incoming == Some(t.data[..t.transmitted])
    ensures Consumed(incoming, Chunks(t, batch)) == (None, [t.data])
    decreases |t.data| - t.transmitted
  {
    var chunks := Chunks(t, batch);
    PieceExtends(t.data, t.transmitted, batch);
    ConsumedHead(incoming, chunks);
    assert t.transmitted == 0 ==> t.data[..t.transmitted] == [];
    if Piece(t.data, t.transmitted, batch) == [] {
      assert chunks[1..] == [];
      assert t.data[..t.transmitted] == t.data;
      assert Taking(incoming, chunks[0]) == (None, Some(t.data + []));
      assert [t.data] + [] == [t.data];
    } else {
      assert chunks[1..] == Chunks(Moved(t, batch), batch);
      var (left, whole) := Taking(incoming, chunks[0]);
      assert left == Some(t.data[..t.transmitted] + Piece(t.data, t.transmitted, batch)) && whole == None;
      TransferCompletes(left, Moved(t, batch), batch);
      assert [] + [t.data] == [t.data];
    }
  }

  /** Consecutive requests of one peer. */
  function RequestedAll(s: Sender, peer: PeerId, batch: nat, n: nat): (Sender, seq<Option<Chunk>>)
    decreases n
  {
    if n == 0 then (s, [])
    else
      var (next, chunk) := Requested(s, peer, batch);
      var (last, chunks) := RequestedAll(next, peer, batch, n - 1);
      (last, [chunk] + chunks)
  }

  lemma {:induction false} RequestsGiveChunks(s: Sender, peer: PeerId, batch: nat)
    requires batch > 0 && s.progress.Ready? && Current(s, peer).Some?
    requires Current(s, peer).value.transmitted <= |Current(s, peer).value.data|
    ensures var chunks := Chunks(Current(s, peer).value, batch);
            RequestedAll(s, peer, batch, |chunks|) == (s.(transmissions := s.transmissions - {peer}), chunks)
    decreases |Current(s, peer).value.data| - Current(s, peer).value.transmitted
  {
    var t := Current(s, peer).value;
    var next := Requested(s, peer, batch).0;
    PieceExtends(t.data, t.transmitted, batch);
    if Piece(t.data, t.transmitted, batch) == [] {
      var chunk := Requested(s, peer, batch).1;
      assert RequestedAll(next, peer, batch, 0) == (next, []);
      assert RequestedAll(s, peer, batch, 1) == (next, [chunk] + []);
      assert [chunk] + [] == Chunks(t, batch);
      assert next == s.(transmissions := s.transmissions - {peer});
    } else {
      assert Current(next, peer) == Some(Moved(t, batch));
      RequestsGiveChunks(next, peer, batch);
      assert next.transmissions - {peer} == s.transmissions - {peer};
      assert |Chunks(t, batch)| - 1 == |Chunks(Moved(t, batch), batch)|;
    }
  }

  /** A peer that asks often enough, with nothing in between, completes exactly the
      sender's snapshot, whatever it had received before. */
  lemma UninterruptedTransfer(s: Sender, peer: PeerId, batch: nat, incoming: Option<seq<byte>>, data: seq<byte>)
    requires batch > 0 && s.progress.Ready? && peer !in s.transmissions && s.memory == Some(data)
    ensures var n := |Chunks(Transmission(0, data), batch)|;
            && Times(n - 2, batch) < |data| <= Times(n - 1, batch)
            && Consumed(incoming, RequestedAll(s, peer, batch, n).1) == (None, [data])
            && RequestedAll(s, peer, batch, n).0 == s
  {
    RequestsGiveChunks(s, peer, batch);
    CallsToFinish(Transmission(0, data), batch);
    TransferCompletes(incoming, Transmission(0, data), batch);
    assert s.transmissions - {peer} == s.transmissions;
  }
}
