/** Commands and their callbacks: the queue, forwarding to the leader, the
    table of callbacks that wait for a reply and the table of callbacks that wait
    for an index to be applied. Functions over the client side of one node. */
module RaftClient {
  import opened Options
  import opened RaftTypes
  import opened RaftProtocol

  /** A callback handed over with a command; each submission brings its own. */
  type Callback = nat

  datatype Reason = QueueFull | MissingLeader | NotLeader | LeaderChanged | Discarded

  /** Who waits for a queued command: nobody, a local callback, or a request of
      another node. */
  datatype Origin = Silent | Local(cb: Callback) | Remote(node: NodeId, id: nat)

  datatype Request = Request(cmd: Command, origin: Origin)

  datatype Outcome = Success(entry: Entry) | Failure(reason: Reason)

  datatype Fired = Fired(cb: Callback, outcome: Outcome)

  datatype Waiting = Waiting(term: nat, cb: Callback)

  /** `fired` lists the callback invocations so far. */
  datatype Client = Client(
    queue: seq<Request>,
    counter: nat,
    waitingReply: map<nat, Callback>,
    waitingCommit: map<nat, seq<Waiting>>,
    fired: seq<Fired>)

  datatype Answer = Placed(idx: nat, term: nat) | Refused(reason: Reason)

  datatype ClientMsg =
    | ApplyCommand(cmd: Command, id: Option<nat>)
    | ApplyResponse(reqId: nat, answer: Answer)

  datatype ClientPacket = ClientPacket(src: NodeId, dst: NodeId, msg: ClientMsg)

  const FRESH_CLIENT := Client([], 0, map[], map[], [])

  function Fire(c: Client, cb: Callback, outcome: Outcome): Client {
    c.(fired := c.fired + [Fired(cb, outcome)])
  }

  /** Messages only go to peers. */
  function SendTo(r: Raft, dst: NodeId, msg: ClientMsg): multiset<ClientPacket> {
    if dst in r.peers then multiset{ClientPacket(r.id, dst, msg)} else multiset{}
  }

  /** Report an error to whoever waits. */
  function Fail(c: Client, r: Raft, origin: Origin, reason: Reason): (Client, multiset<ClientPacket>) {
    match origin
    case Silent => (c, multiset{})
    case Local(cb) => (Fire(c, cb, Failure(reason)), multiset{})
    case Remote(node, id) => (c, SendTo(r, node, ApplyResponse(id, Refused(reason))))
  }

  /** A command enters the queue unless the queue is full. */
  function Enqueue(c: Client, r: Raft, req: Request, capacity: nat): (Client, multiset<ClientPacket>) {
    if |c.queue| < capacity then (c.(queue := c.queue + [req]), multiset{})
    else Fail(c, r, req.origin, QueueFull)
  }

  function Subscribe(c: Client, idx: nat, w: Waiting): Client {
    var already := if idx in c.waitingCommit then c.waitingCommit[idx] else [];
    c.(waitingCommit := c.waitingCommit[idx := already + [w]])
  }

  /** The leader takes a command: the log grows, and whoever waits learns the
      index and term. */
  function Lead(c: Client, r: Raft, req: Request): (Client, Raft, multiset<ClientPacket>)
    requires |r.log| > 0
  {
    var idx := LastIdx(r.log) + 1;
    var next := LeaderAppend(r, req.cmd);
    match req.origin
    case Silent => (c, next, multiset{})
    case Local(cb) => (Subscribe(c, idx, Waiting(r.term, cb)), next, multiset{})
    case Remote(node, id) => (c, next, SendTo(r, node, ApplyResponse(id, Placed(idx, r.term))))
  }

  /** A node that follows another forwards its own commands. */
  function Forward(c: Client, r: Raft, req: Request, leader: NodeId): (Client, multiset<ClientPacket>) {
    match req.origin
    case Silent => (c, SendTo(r, leader, ApplyCommand(req.cmd, None)))
    case Local(cb) =>
      var id := c.counter + 1;
      (c.(counter := id, waitingReply := c.waitingReply[id := cb]), SendTo(r, leader, ApplyCommand(req.cmd, Some(id))))
    case Remote(_, _) => Fail(c, r, req.origin, NotLeader)
  }

  /** One round of the command loop. */
  function Process(c: Client, r: Raft): (Client, Raft, multiset<ClientPacket>)
    requires |r.log| > 0 && c.queue != []
  {
    var req := c.queue[0];
    var rest := c.(queue := c.queue[1..]);
    if r.role == Leader then Lead(rest, r, req)
    else if r.leader.Some? then
      var (d, out) := Forward(rest, r, req, r.leader.value); (d, r, out)
    else
      var (d, out) := Fail(rest, r, req.origin, MissingLeader); (d, r, out)
  }

  function OnApplyCommand(c: Client, r: Raft, src: NodeId, msg: ClientMsg, capacity: nat): (Client, multiset<ClientPacket>)
    requires msg.ApplyCommand?
  {
    Enqueue(c, r, Request(msg.cmd, if msg.id.Some? then Remote(src, msg.id.value) else Silent), capacity)
  }

  /** An index that was applied already fails an assertion: the callback has
      left the reply table and is never invoked. */
  function OnApplyResponse(c: Client, r: Raft, msg: ClientMsg): Client
    requires msg.ApplyResponse?
  {
    if msg.reqId !in c.waitingReply then c
    else
      var cb := c.waitingReply[msg.reqId];
      var rest := c.(waitingReply := c.waitingReply - {msg.reqId});
      match msg.answer
      case Refused(reason) => Fire(rest, cb, Failure(reason))
      case Placed(idx, term) => if idx > r.lastApplied then Subscribe(rest, idx, Waiting(term, cb)) else rest
  }

  /** The request ids from lo up to hi that still wait, in increasing order. */
  function WaitingIds(waiting: map<nat, Callback>, lo: nat, hi: nat): (ids: seq<nat>)
    ensures forall i :: 0 <= i < |ids| ==> ids[i] in waiting && lo <= ids[i] <= hi
    ensures forall i, j :: 0 <= i < j < |ids| ==> ids[i] < ids[j]
    ensures forall id :: id in waiting && lo <= id <= hi ==> id in ids
    decreases hi + 1 - lo
  {
    if lo > hi then [] else (if lo in waiting then [lo] else []) + WaitingIds(waiting, lo + 1, hi)
  }

  /** Every callback that waits for a reply is told that the leader changed. */
  function OnLeaderChanged(c: Client): Client {
    var ids := WaitingIds(c.waitingReply, 1, c.counter);
    var calls := seq(|ids|, i requires 0 <= i < |ids| => Fired(c.waitingReply[ids[i]], Failure(LeaderChanged)));
    c.(waitingReply := map[], fired := c.fired + calls)
  }

  function Notify(subscribers: seq<Waiting>, entry: Entry): seq<Fired> {
    seq(|subscribers|, i requires 0 <= i < |subscribers| =>
      Fired(subscribers[i].cb,
            if subscribers[i].term == entry.term then Success(entry) else Failure(Discarded)))
  }

  /** Applying one entry: its subscribers leave the table, and are called unless
      the command raises. */
  function ApplyEntry(c: Client, entry: Entry, selfVer: nat): Client {
    var subscribers := if entry.idx in c.waitingCommit then c.waitingCommit[entry.idx] else [];
    c.(waitingCommit := c.waitingCommit - {entry.idx},
       fired := c.fired + if Supported(entry.cmd, selfVer) then Notify(subscribers, entry) else [])
  }

  function ApplyEntries(c: Client, es: seq<Entry>, selfVer: nat): Client
    decreases |es|
  {
    if es == [] then c
    else
      var last := es[|es| - 1];
      ApplyEntry(ApplyEntries(c, es[..|es| - 1], selfVer), last, selfVer)
  }
}
