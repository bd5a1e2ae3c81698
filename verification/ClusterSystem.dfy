/** The cluster with its clients: commands are queued, forwarded to the leader,
    logged, applied, and their callbacks invoked. The Raft part of every step is
    a step of RaftSystem or leaves it alone. */
module ClusterSystem {
  import opened Options
  import opened RaftTypes
  import opened RaftProtocol
  import opened RaftSystem
  import opened RaftElection
  import opened RaftLog
  import opened RaftClient

  /** History: the command each callback was submitted with, and the command of
      each forwarded request. */
  datatype Cluster = Cluster(
    raft: System,
    clients: map<NodeId, Client>,
    traffic: multiset<ClientPacket>,
    commandOf: map<Callback, Command>,
    requested: map<(NodeId, nat), Command>)

  datatype Move =
    | RaftMove(step: Step)
    | Submit(n: NodeId, cmd: Command, cb: Option<Callback>, capacity: nat)
    | ProcessNext(n: NodeId)
    | DeliverClient(p: ClientPacket, capacity: nat)
    | DropClient(p: ClientPacket)

  predicate Start(g: Cluster) {
    && Init(g.raft)
    && g.clients == (map n | n in g.raft.nodes :: FRESH_CLIENT)
    && g.traffic == multiset{} && g.commandOf == map[] && g.requested == map[]
  }

  predicate Ready(g: Cluster) {
    Running(g.raft) && g.clients.Keys == g.raft.nodes.Keys
  }

  predicate Allowed(g: Cluster, move: Move)
    requires Ready(g)
  {
    match move
    case RaftMove(step) => !step.AppendCommand? && Enabled(g.raft, step)
    case Submit(n, cmd, cb, _) => n in g.clients && (cb.Some? ==> cb.value !in g.commandOf)
    case ProcessNext(n) => n in g.clients && g.clients[n].queue != []
    case DeliverClient(p, _) => p in g.traffic && p.dst in g.clients
    case DropClient(p) => p in g.traffic
  }

  /** What a Raft step does to the client tables of the node that takes it. */
  function SideEffect(c: Client, r: Raft, step: Step): Client
    requires |r.log| > 0
  {
    match step
    case Timeout(_) => OnLeaderChanged(c)
    case Deliver(p) =>
      if IsAppend(p.msg) && p.msg.term >= r.term && r.leader != Some(p.src) then OnLeaderChanged(c) else c
    case Apply(_) => ApplyEntries(c, Unapplied(r), r.selfVer)
    case _ => c
  }

  function Actor(step: Step): Option<NodeId> {
    match step
    case Timeout(n) => Some(n)
    case Deliver(p) => Some(p.dst)
    case Apply(n) => Some(n)
    case _ => None
  }

  function AfterRaft(g: Cluster, step: Step): Cluster
    requires Ready(g) && Enabled(g.raft, step)
  {
    var t := Next(g.raft, step);
    match Actor(step)
    case Some(n) => WithEffect(g, t, n, SideEffect(g.clients[n], g.raft.nodes[n], step))
    case None => WithRaft(g, t)
  }

  function WithRaft(g: Cluster, t: System): Cluster {
    Cluster(t, g.clients, g.traffic, g.commandOf, g.requested)
  }

  function WithEffect(g: Cluster, t: System, n: NodeId, c: Client): Cluster {
    Cluster(t, g.clients[n := c], g.traffic, g.commandOf, g.requested)
  }

  function AfterSubmit(g: Cluster, n: NodeId, cmd: Command, cb: Option<Callback>, capacity: nat): Cluster
    requires Ready(g) && n in g.clients
  {
    var origin := if cb.Some? then Local(cb.value) else Silent;
    var (c, out) := Enqueue(g.clients[n], g.raft.nodes[n], Request(cmd, origin), capacity);
    Cluster(g.raft, g.clients[n := c], g.traffic + out,
            if cb.Some? then g.commandOf[cb.value := cmd] else g.commandOf, g.requested)
  }

  function AfterLead(g: Cluster, n: NodeId): Cluster
    requires Ready(g) && n in g.clients && g.clients[n].queue != []
  {
    var c, r := g.clients[n], g.raft.nodes[n];
    var (d, _, out) := Lead(c.(queue := c.queue[1..]), r, c.queue[0]);
    Cluster(AfterAppend(g.raft, n, c.queue[0].cmd), g.clients[n := d], g.traffic + out, g.commandOf, g.requested)
  }

  /** The requests on record once node n has counted up to `after`. */
  function Recorded(requested: map<(NodeId, nat), Command>, n: NodeId, before: nat, after: nat, cmd: Command)
    : map<(NodeId, nat), Command>
  {
    if after > before then requested[(n, after) := cmd] else requested
  }

  function AfterForward(g: Cluster, n: NodeId, leader: NodeId): Cluster
    requires Ready(g) && n in g.clients && g.clients[n].queue != []
  {
    var c, r := g.clients[n], g.raft.nodes[n];
    var (d, out) := Forward(c.(queue := c.queue[1..]), r, c.queue[0], leader);
    Cluster(g.raft, g.clients[n := d], g.traffic + out, g.commandOf,
            Recorded(g.requested, n, c.counter, d.counter, c.queue[0].cmd))
  }

  function AfterMissing(g: Cluster, n: NodeId): Cluster
    requires Ready(g) && n in g.clients && g.clients[n].queue != []
  {
    var c, r := g.clients[n], g.raft.nodes[n];
    var (d, out) := Fail(c.(queue := c.queue[1..]), r, c.queue[0].origin, MissingLeader);
    Cluster(g.raft, g.clients[n := d], g.traffic + out, g.commandOf, g.requested)
  }

  /** One round of the command loop: RaftClient.Process with its effect on the
      log and the network. */
  function AfterProcess(g: Cluster, n: NodeId): Cluster
    requires Ready(g) && n in g.clients && g.clients[n].queue != []
  {
    var r := g.raft.nodes[n];
    if r.role == Leader then AfterLead(g, n)
    else if r.leader.Some? then AfterForward(g, n, r.leader.value)
    else AfterMissing(g, n)
  }

  lemma LeadIsProcess(g: Cluster, n: NodeId)
    requires Ready(g) && n in g.clients && g.clients[n].queue != [] && g.raft.nodes[n].role == Leader
    ensures var (c, r, out) := Process(g.clients[n], g.raft.nodes[n]);
            var h := AfterLead(g, n);
            h.clients == g.clients[n := c] && h.traffic == g.traffic + out && h.raft.nodes == g.raft.nodes[n := r]
  {
    var c := g.clients[n];
    assert Lead(c.(queue := c.queue[1..]), g.raft.nodes[n], c.queue[0]).1 == LeaderAppend(g.raft.nodes[n], c.queue[0].cmd);
  }

  /** What AfterProcess does to node n is what Process does there. */
  lemma ProcessIsProcess(g: Cluster, n: NodeId)
    requires Ready(g) && n in g.clients && g.clients[n].queue != []
    ensures var (c, r, out) := Process(g.clients[n], g.raft.nodes[n]);
            var h := AfterProcess(g, n);
            h.clients == g.clients[n := c] && h.traffic == g.traffic + out && h.raft.nodes == g.raft.nodes[n := r]
  {
    if g.raft.nodes[n].role == Leader {
      LeadIsProcess(g, n);
    } else {
      assert g.raft.nodes[n := g.raft.nodes[n]] == g.raft.nodes;
    }
  }

  function AfterClientDelivery(g: Cluster, p: ClientPacket, capacity: nat): Cluster
    requires Ready(g) && p.dst in g.clients
  {
    var c, r := g.clients[p.dst], g.raft.nodes[p.dst];
    var (d, out) := match p.msg
                    case ApplyCommand(_, _) => OnApplyCommand(c, r, p.src, p.msg, capacity)
                    case ApplyResponse(_, _) => (OnApplyResponse(c, r, p.msg), multiset{});
    Cluster(g.raft, g.clients[p.dst := d], g.traffic - multiset{p} + out, g.commandOf, g.requested)
  }

  function After(g: Cluster, move: Move): Cluster
    requires Ready(g) && Allowed(g, move)
  {
    match move
    case RaftMove(step) => AfterRaft(g, step)
    case Submit(n, cmd, cb, capacity) => AfterSubmit(g, n, cmd, cb, capacity)
    case ProcessNext(n) => AfterProcess(g, n)
    case DeliverClient(p, capacity) => AfterClientDelivery(g, p, capacity)
    case DropClient(p) => g.(traffic := g.traffic - multiset{p})
  }

  ghost predicate Moves(g: Cluster, h: Cluster) {
    Ready(g) && exists move :: Allowed(g, move) && h == After(g, move)
  }

  ghost predicate MoveAt(states: seq<Cluster>, i: nat)
    requires 0 < i < |states|
  {
    Moves(states[i - 1], states[i])
  }

  ghost predicate Session(states: seq<Cluster>) {
    && |states| > 0
    && Start(states[0])
    && forall i :: 0 < i < |states| ==> MoveAt(states, i)
  }

  // --------------------------------------------------------------- invariants

  /** The histories that client tables and packets have to agree with. */
  datatype Facts = Facts(
    logs: TermLogs,
    applied: map<NodeId, seq<Application>>,
    commandOf: map<Callback, Command>,
    requested: map<(NodeId, nat), Command>)

  function FactsOf(g: Cluster): Facts {
    Facts(g.raft.hist.termLog, g.raft.hist.applied, g.commandOf, g.requested)
  }

  /** The leader of term t put this command at index idx. */
  ghost predicate PlacedAt(logs: TermLogs, t: nat, idx: nat, cmd: Command) {
    t in logs && 1 <= idx <= |logs[t]| && logs[t][idx - 1].cmd == cmd
  }

  ghost predicate Submitted(f: Facts, cb: Callback, cmd: Command) {
    cb in f.commandOf && f.commandOf[cb] == cmd
  }

  ghost predicate WasRequested(f: Facts, n: NodeId, id: nat, cmd: Command) {
    (n, id) in f.requested && f.requested[(n, id)] == cmd
  }

  ghost predicate RequestTrue(f: Facts, req: Request) {
    match req.origin
    case Silent => true
    case Local(cb) => Submitted(f, cb, req.cmd)
    case Remote(n, id) => WasRequested(f, n, id, req.cmd)
  }

  ghost predicate ReplyTrue(f: Facts, n: NodeId, id: nat, cb: Callback) {
    cb in f.commandOf && WasRequested(f, n, id, f.commandOf[cb])
  }

  ghost predicate WaitingTrue(f: Facts, idx: nat, w: Waiting) {
    w.cb in f.commandOf && PlacedAt(f.logs, w.term, idx, f.commandOf[w.cb])
  }

  ghost predicate Applied(apps: seq<Application>, e: Entry) {
    exists j :: 0 <= j < |apps| && apps[j].entry == e
  }

  /** A success was reported for the command that was applied. */
  ghost predicate FiredTrue(f: Facts, n: NodeId, call: Fired) {
    call.outcome.Success? ==>
      Submitted(f, call.cb, call.outcome.entry.cmd) && n in f.applied && Applied(f.applied[n], call.outcome.entry)
  }

  ghost predicate ClientTrue(f: Facts, n: NodeId, c: Client) {
    && (forall i :: 0 <= i < |c.queue| ==> RequestTrue(f, c.queue[i]))
    && (forall id :: id in c.waitingReply ==> ReplyTrue(f, n, id, c.waitingReply[id]))
    && (forall idx, j :: idx in c.waitingCommit && 0 <= j < |c.waitingCommit[idx]| ==>
          WaitingTrue(f, idx, c.waitingCommit[idx][j]))
    && (forall k :: 0 <= k < |c.fired| ==> FiredTrue(f, n, c.fired[k]))
    && (forall id :: (n, id) in f.requested ==> id <= c.counter)
  }

  ghost predicate PacketTrue(f: Facts, p: ClientPacket) {
    match p.msg
    case ApplyCommand(cmd, id) => id.Some? ==> WasRequested(f, p.src, id.value, cmd)
    case ApplyResponse(id, answer) =>
      answer.Placed? ==>
        (p.dst, id) in f.requested && PlacedAt(f.logs, answer.term, answer.idx, f.requested[(p.dst, id)])
  }

  ghost predicate AllTrue(f: Facts, clients: map<NodeId, Client>, traffic: multiset<ClientPacket>) {
    && (forall n :: n in clients ==> ClientTrue(f, n, clients[n]))
    && (forall p :: p in traffic ==> PacketTrue(f, p))
  }

  ghost predicate ClusterInv(g: Cluster) {
    Ready(g) && ElectionInv(g.raft) && LogInv(g.raft) && AllTrue(FactsOf(g), g.clients, g.traffic)
  }

  // ------------------------------------------------------- what growth preserves

  ghost predicate AppliedGrows(a: map<NodeId, seq<Application>>, b: map<NodeId, seq<Application>>) {
    forall n :: n in a ==> n in b && a[n] <= b[n]
  }

  /** Histories only grow, and only node n makes new requests. */
  ghost predicate Grows(f: Facts, g: Facts, n: NodeId) {
    && LogsGrow(f.logs, g.logs)
    && AppliedGrows(f.applied, g.applied)
    && (forall cb :: cb in f.commandOf ==> cb in g.commandOf && g.commandOf[cb] == f.commandOf[cb])
    && (forall k :: k in f.requested ==> k in g.requested && g.requested[k] == f.requested[k])
    && (forall k :: k in g.requested ==> k in f.requested || k.0 == n)
  }

  lemma GrowClientPacket(f: Facts, g: Facts, n: NodeId, p: ClientPacket)
    requires Grows(f, g, n) && PacketTrue(f, p)
    ensures PacketTrue(g, p)
  {
  }

  lemma GrowFired(f: Facts, g: Facts, n: NodeId, m: NodeId, call: Fired)
    requires Grows(f, g, n) && FiredTrue(f, m, call)
    ensures FiredTrue(g, m, call)
  {
    if call.outcome.Success? {
      var e := call.outcome.entry;
      var j :| 0 <= j < |f.applied[m]| && f.applied[m][j].entry == e;
      assert g.applied[m][j].entry == e;
    }
  }

  lemma GrowClient(f: Facts, g: Facts, n: NodeId, m: NodeId, c: Client)
    requires Grows(f, g, n) && ClientTrue(f, m, c)
    requires forall id :: (m, id) in g.requested ==> id <= c.counter
    ensures ClientTrue(g, m, c)
  {
    forall k | 0 <= k < |c.fired| ensures FiredTrue(g, m, c.fired[k]) {
      GrowFired(f, g, n, m, c.fired[k]);
    }
  }

  /** All a move has to show: histories grew, and the client it touched and the
      packets it sent are true. */
  lemma MoveKeepsTruth(f: Facts, g: Facts, clients: map<NodeId, Client>, traffic: multiset<ClientPacket>,
                       n: NodeId, c: Client, taken: multiset<ClientPacket>, sent: multiset<ClientPacket>)
    requires AllTrue(f, clients, traffic) && Grows(f, g, n)
    requires ClientTrue(g, n, c) && forall p :: p in sent ==> PacketTrue(g, p)
    ensures AllTrue(g, clients[n := c], traffic - taken + sent)
  {
    forall m | m in clients && m != n ensures ClientTrue(g, m, clients[m]) {
      assert ClientTrue(f, m, clients[m]);
      forall id | (m, id) in g.requested ensures id <= clients[m].counter {
        assert (m, id).0 != n;
      }
      GrowClient(f, g, n, m, clients[m]);
    }
    forall p | p in traffic ensures PacketTrue(g, p) {
      GrowClientPacket(f, g, n, p);
    }
  }
}
