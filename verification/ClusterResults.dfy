/** What clients can rely on, over whole runs of the cluster. */
module ClusterResults {
  import opened Options
  import opened RaftTypes
  import opened RaftProtocol
  import opened RaftSystem
  import opened RaftElection
  import opened RaftLog
  import opened RaftClient
  import opened RaftCallbacks
  import opened ClusterSystem
  import opened ClusterProofs

  /** No callback is known to two nodes, or twice to one. */
  ghost predicate CallbackInv(clients: map<NodeId, Client>, commandOf: map<Callback, Command>) {
    && (forall n :: n in clients ==> Sound(clients[n]))
    && (forall n, cb: Callback :: n in clients && Holds(clients[n], cb) ==> cb in commandOf)
    && (forall m, n, cb: Callback :: m in clients && n in clients && Holds(clients[m], cb) && Holds(clients[n], cb) ==> m == n)
  }

  lemma CallbackStep(clients: map<NodeId, Client>, before: map<Callback, Command>, n: NodeId, d: Client, after: map<Callback, Command>)
    requires CallbackInv(clients, before) && n in clients && Sound(d)
    requires forall cb :: cb in before ==> cb in after
    requires forall cb: Callback :: Holds(d, cb) ==> Holds(clients[n], cb) || (cb !in before && cb in after)
    ensures CallbackInv(clients[n := d], after)
  {
  }

  lemma SideEffectKeepsCallbacks(c: Client, r: Raft, step: Step)
    requires Sound(c) && |r.log| > 0
    ensures Sound(SideEffect(c, r, step)) && NoNewCallbacks(c, SideEffect(c, r, step))
  {
    match step
    case Timeout(_) => LeaderChangedKeeps(c);
    case Deliver(_) => LeaderChangedKeeps(c);
    case Apply(_) => ApplyEntriesKeep(c, Unapplied(r), r.selfVer);
    case _ =>
  }

  lemma RaftMoveKeepsCallbacks(g: Cluster, step: Step)
    requires Ready(g) && Enabled(g.raft, step) && CallbackInv(g.clients, g.commandOf)
    ensures CallbackInv(AfterRaft(g, step).clients, g.commandOf) && AfterRaft(g, step).commandOf == g.commandOf
  {
    match Actor(step)
    case None =>
    case Some(n) =>
      SideEffectKeepsCallbacks(g.clients[n], g.raft.nodes[n], step);
      CallbackStep(g.clients, g.commandOf, n, SideEffect(g.clients[n], g.raft.nodes[n], step), g.commandOf);
  }

  lemma SubmitKeepsCallbacks(g: Cluster, n: NodeId, cmd: Command, cb: Option<Callback>, capacity: nat)
    requires Ready(g) && n in g.clients && (cb.Some? ==> cb.value !in g.commandOf) && CallbackInv(g.clients, g.commandOf)
    ensures CallbackInv(AfterSubmit(g, n, cmd, cb, capacity).clients, AfterSubmit(g, n, cmd, cb, capacity).commandOf)
  {
    var req := Request(cmd, if cb.Some? then Local(cb.value) else Silent);
    EnqueueKeeps(g.clients[n], g.raft.nodes[n], req, capacity);
    CallbackStep(g.clients, g.commandOf, n, Enqueue(g.clients[n], g.raft.nodes[n], req, capacity).0,
                 AfterSubmit(g, n, cmd, cb, capacity).commandOf);
  }

  lemma ProcessKeepsCallbacks(g: Cluster, n: NodeId)
    requires Ready(g) && n in g.clients && g.clients[n].queue != [] && CallbackInv(g.clients, g.commandOf)
    ensures CallbackInv(AfterProcess(g, n).clients, g.commandOf) && AfterProcess(g, n).commandOf == g.commandOf
  {
    ProcessIsProcess(g, n);
    ProcessKeeps(g.clients[n], g.raft.nodes[n]);
    CallbackStep(g.clients, g.commandOf, n, Process(g.clients[n], g.raft.nodes[n]).0, g.commandOf);
  }

  lemma DeliveryKeepsCallbacks(g: Cluster, p: ClientPacket, capacity: nat)
    requires Ready(g) && p.dst in g.clients && CallbackInv(g.clients, g.commandOf)
    ensures CallbackInv(AfterClientDelivery(g, p, capacity).clients, g.commandOf)
    ensures AfterClientDelivery(g, p, capacity).commandOf == g.commandOf
  {
    var c, r := g.clients[p.dst], g.raft.nodes[p.dst];
    match p.msg
    case ApplyCommand(cmd, id) =>
      var req := Request(cmd, if id.Some? then Remote(p.src, id.value) else Silent);
      EnqueueKeeps(c, r, req, capacity);
      CallbackStep(g.clients, g.commandOf, p.dst, Enqueue(c, r, req, capacity).0, g.commandOf);
    case ApplyResponse(_, _) =>
      ResponseKeepsCallbacks(c, r, p.msg);
      CallbackStep(g.clients, g.commandOf, p.dst, OnApplyResponse(c, r, p.msg), g.commandOf);
  }

  lemma MoveKeepsCallbacks(g: Cluster, move: Move)
    requires Ready(g) && Allowed(g, move) && CallbackInv(g.clients, g.commandOf)
    ensures CallbackInv(After(g, move).clients, After(g, move).commandOf)
  {
    match move
    case RaftMove(step) => RaftMoveKeepsCallbacks(g, step);
    case Submit(n, cmd, cb, capacity) => SubmitKeepsCallbacks(g, n, cmd, cb, capacity);
    case ProcessNext(n) => ProcessKeepsCallbacks(g, n);
    case DeliverClient(p, capacity) => DeliveryKeepsCallbacks(g, p, capacity);
    case DropClient(p) =>
  }

  // ------------------------------------------------------------------ whole runs

  lemma StartIsSound(g: Cluster)
    requires Start(g)
    ensures ClusterInv(g) && CallbackInv(g.clients, g.commandOf)
  {
    ElectionInvInit(g.raft);
    LogInvInit(g.raft);
    FreshClients(g);
  }

  lemma FreshClient(f: Facts, n: NodeId)
    requires f.requested == map[]
    ensures ClientTrue(f, n, FRESH_CLIENT) && Sound(FRESH_CLIENT)
    ensures forall cb: Callback :: !Holds(FRESH_CLIENT, cb)
  {
    assert forall s :: Held(FRESH_CLIENT, s).None?;
  }

  lemma FreshClients(g: Cluster)
    requires Start(g)
    ensures Ready(g) && AllTrue(FactsOf(g), g.clients, g.traffic) && CallbackInv(g.clients, g.commandOf)
  {
    FreshClient(FactsOf(g), 0);
    FreshReady(g);
    AllFresh(FactsOf(g), g.clients, g.traffic);
  }

  lemma FreshReady(g: Cluster)
    requires Start(g)
    ensures Ready(g) && forall n :: n in g.clients ==> g.clients[n] == FRESH_CLIENT
  {
    InitialShape(g.raft);
  }

  lemma AllFresh(f: Facts, clients: map<NodeId, Client>, traffic: multiset<ClientPacket>)
    requires f.requested == map[] && f.commandOf == map[] && traffic == multiset{}
    requires forall n :: n in clients ==> clients[n] == FRESH_CLIENT
    ensures AllTrue(f, clients, traffic) && CallbackInv(clients, f.commandOf)
  {
    forall n | n in clients ensures ClientTrue(f, n, clients[n]) {
      FreshClient(f, n);
    }
    FreshClient(f, 0);
  }

  lemma MovesKeep(g: Cluster, h: Cluster)
    requires ClusterInv(g) && CallbackInv(g.clients, g.commandOf) && Moves(g, h)
    ensures ClusterInv(h) && CallbackInv(h.clients, h.commandOf)
  {
    var move :| Allowed(g, move) && h == After(g, move);
    MoveKeeps(g, move);
    MoveKeepsCallbacks(g, move);
  }

  lemma SessionMoves(states: seq<Cluster>, i: nat)
    requires Session(states) && 0 < i < |states|
    ensures Moves(states[i - 1], states[i])
  {
    assert MoveAt(states, i);
  }

  lemma InvAt(states: seq<Cluster>, i: nat)
    requires Session(states) && 0 < i < |states|
    requires ClusterInv(states[i - 1]) && CallbackInv(states[i - 1].clients, states[i - 1].commandOf)
    ensures ClusterInv(states[i]) && CallbackInv(states[i].clients, states[i].commandOf)
  {
    SessionMoves(states, i);
    MovesKeep(states[i - 1], states[i]);
  }

  lemma {:induction false} SessionKeeps(states: seq<Cluster>, i: nat)
    requires Session(states) && i < |states|
    ensures ClusterInv(states[i]) && CallbackInv(states[i].clients, states[i].commandOf)
  {
    if i == 0 {
      StartIsSound(states[0]);
    } else {
      SessionKeeps(states, i - 1);
      InvAt(states, i);
    }
  }

  /** SUCCESS means that command: when a callback was told of success, the entry
      that its node applied carries the command it was submitted with. */
  lemma SuccessMeansThatCommand(states: seq<Cluster>, i: nat, n: NodeId, k: nat)
    requires Session(states) && i < |states| && n in states[i].clients && k < |states[i].clients[n].fired|
    requires states[i].clients[n].fired[k].outcome.Success?
    ensures var g := states[i];
            var call := g.clients[n].fired[k];
            && call.cb in g.commandOf && call.outcome.entry.cmd == g.commandOf[call.cb]
            && n in g.raft.hist.applied && Applied(g.raft.hist.applied[n], call.outcome.entry)
  {
    SessionKeeps(states, i);
    var f := FactsOf(states[i]);
    assert ClientTrue(f, n, states[i].clients[n]);
    assert FiredTrue(f, n, states[i].clients[n].fired[k]);
  }

  /** At most one invocation per callback, over all nodes. */
  lemma InvokedAtMostOnce(states: seq<Cluster>, i: nat, m: NodeId, n: NodeId, j: nat, k: nat)
    requires Session(states) && i < |states| && m in states[i].clients && n in states[i].clients
    requires j < |states[i].clients[m].fired| && k < |states[i].clients[n].fired|
    requires states[i].clients[m].fired[j].cb == states[i].clients[n].fired[k].cb
    ensures m == n && j == k
  {
    SessionKeeps(states, i);
    FiredOnce(states[i].clients, states[i].commandOf, m, n, j, k);
  }

  lemma FiredOnce(clients: map<NodeId, Client>, commandOf: map<Callback, Command>, m: NodeId, n: NodeId, j: nat, k: nat)
    requires CallbackInv(clients, commandOf) && m in clients && n in clients
    requires j < |clients[m].fired| && k < |clients[n].fired| && clients[m].fired[j].cb == clients[n].fired[k].cb
    ensures m == n && j == k
  {
    var cb := clients[m].fired[j].cb;
    assert Held(clients[m], Done(j)) == Some(cb);
    assert Held(clients[n], Done(k)) == Some(cb);
    assert Holds(clients[m], cb) && Holds(clients[n], cb);
    assert Sound(clients[m]);
  }
}
