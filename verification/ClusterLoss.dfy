/** What becomes of a submitted callback over a whole session: its node knows it
    until one of the two losses of RaftLoss strikes it, and never again. */
module ClusterLoss {
  import opened Options
  import opened RaftTypes
  import opened RaftProtocol
  import opened RaftSystem
  import opened RaftLog
  import opened RaftClient
  import opened RaftCallbacks
  import opened RaftLoss
  import opened ClusterSystem
  import opened ClusterProofs
  import opened ClusterResults

  /** This move loses callback cb of node n: it delivers the answer to its request
      with an index that was applied, or applies an entry that it waits for and whose
      command raises. */
  ghost predicate Loses(g: Cluster, move: Move, n: NodeId, cb: Callback)
    requires Ready(g) && n in g.clients
  {
    match move
    case DeliverClient(p, _) =>
      p.dst == n && p.msg.ApplyResponse? && AnsweredTooLate(g.clients[n], g.raft.nodes[n], p.msg, cb)
    case RaftMove(step) =>
      step == Apply(n) && WaitsForRaisingIn(g.clients[n], Unapplied(g.raft.nodes[n]), g.raft.nodes[n].selfVer, cb)
    case _ => false
  }

  lemma UnappliedDistinct(r: Raft)
    requires WellFormedLog(r.log)
    ensures DistinctIdx(Unapplied(r))
  {
    forall i | 0 <= i < |Unapplied(r)| ensures Unapplied(r)[i].idx == r.lastApplied + i + 1 {
      UnappliedAt(r, i);
    }
  }

  lemma SideEffectLosesIff(c: Client, r: Raft, step: Step, n: NodeId, cb: Callback)
    requires Sound(c) && WellFormedLog(r.log) && Holds(c, cb) && Actor(step) == Some(n)
    ensures Holds(SideEffect(c, r, step), cb) <==>
              !(step == Apply(n) && WaitsForRaisingIn(c, Unapplied(r), r.selfVer, cb))
  {
    match step
    case Timeout(_) => LeaderChangedHolds(c, cb);
    case Deliver(_) => LeaderChangedHolds(c, cb);
    case Apply(_) =>
      UnappliedDistinct(r);
      PassLosesIff(c, Unapplied(r), r.selfVer, cb);
    case _ =>
  }

  lemma RaftMoveLosesIff(g: Cluster, step: Step, n: NodeId, cb: Callback)
    requires Ready(g) && Enabled(g.raft, step) && n in g.clients && Sound(g.clients[n]) && WellFormedLog(g.raft.nodes[n].log)
    requires Holds(g.clients[n], cb)
    ensures n in AfterRaft(g, step).clients
    ensures Holds(AfterRaft(g, step).clients[n], cb) <==> !Loses(g, RaftMove(step), n, cb)
  {
    if Actor(step) == Some(n) {
      SideEffectLosesIff(g.clients[n], g.raft.nodes[n], step, n, cb);
    }
  }

  lemma ClientDeliveryLosesIff(g: Cluster, p: ClientPacket, capacity: nat, n: NodeId, cb: Callback)
    requires Ready(g) && p.dst in g.clients && n in g.clients && Sound(g.clients[n]) && Holds(g.clients[n], cb)
    ensures n in AfterClientDelivery(g, p, capacity).clients
    ensures Holds(AfterClientDelivery(g, p, capacity).clients[n], cb) <==> !Loses(g, DeliverClient(p, capacity), n, cb)
  {
    if p.dst == n {
      match p.msg
      case ApplyCommand(cmd, id) =>
        EnqueueHolds(g.clients[n], g.raft.nodes[n], Request(cmd, if id.Some? then Remote(p.src, id.value) else Silent), capacity, cb);
      case ApplyResponse(_, _) => AnswerLosesIff(g.clients[n], g.raft.nodes[n], p.msg, cb);
    }
  }

  lemma ProcessLosesNothing(g: Cluster, m: NodeId, n: NodeId, cb: Callback)
    requires Ready(g) && m in g.clients && g.clients[m].queue != []
    requires n in g.clients && Sound(g.clients[n]) && Holds(g.clients[n], cb)
    ensures n in AfterProcess(g, m).clients && Holds(AfterProcess(g, m).clients[n], cb)
  {
    ProcessIsProcess(g, m);
    if m == n {
      ProcessHolds(g.clients[n], g.raft.nodes[n], cb);
    }
  }

  lemma SubmitLosesNothing(g: Cluster, m: NodeId, cmd: Command, own: Option<Callback>, capacity: nat, n: NodeId, cb: Callback)
    requires Ready(g) && m in g.clients && n in g.clients && (Holds(g.clients[n], cb) || (m == n && own == Some(cb)))
    ensures n in AfterSubmit(g, m, cmd, own, capacity).clients && Holds(AfterSubmit(g, m, cmd, own, capacity).clients[n], cb)
  {
    if m == n {
      EnqueueHolds(g.clients[n], g.raft.nodes[n], Request(cmd, if own.Some? then Local(own.value) else Silent), capacity, cb);
    }
  }

  /** One move. */
  lemma MoveLosesIff(g: Cluster, move: Move, n: NodeId, cb: Callback)
    requires Ready(g) && Allowed(g, move) && n in g.clients && Sound(g.clients[n]) && WellFormedLog(g.raft.nodes[n].log)
    requires Holds(g.clients[n], cb)
    ensures n in After(g, move).clients
    ensures Holds(After(g, move).clients[n], cb) <==> !Loses(g, move, n, cb)
  {
    match move
    case RaftMove(step) => RaftMoveLosesIff(g, step, n, cb);
    case Submit(m, cmd, own, capacity) => SubmitLosesNothing(g, m, cmd, own, capacity, n, cb);
    case ProcessNext(m) => ProcessLosesNothing(g, m, n, cb);
    case DeliverClient(p, capacity) => ClientDeliveryLosesIff(g, p, capacity, n, cb);
    case DropClient(p) =>
  }

  // ------------------------------------------------------------------ whole sessions

  lemma RaftBringsNone(g: Cluster, step: Step, n: NodeId, cb: Callback)
    requires Ready(g) && Enabled(g.raft, step) && n in g.clients && Sound(g.clients[n]) && |g.raft.nodes[n].log| > 0
    requires n in AfterRaft(g, step).clients && Holds(AfterRaft(g, step).clients[n], cb)
    ensures Holds(g.clients[n], cb)
  {
    if Actor(step) == Some(n) {
      SideEffectKeepsCallbacks(g.clients[n], g.raft.nodes[n], step);
    }
  }

  lemma ProcessBringsNone(g: Cluster, m: NodeId, n: NodeId, cb: Callback)
    requires Ready(g) && m in g.clients && g.clients[m].queue != [] && n in g.clients && Sound(g.clients[m])
    requires n in AfterProcess(g, m).clients && Holds(AfterProcess(g, m).clients[n], cb)
    ensures Holds(g.clients[n], cb)
  {
    ProcessIsProcess(g, m);
    ProcessKeeps(g.clients[m], g.raft.nodes[m]);
  }

  /** A callback that its node does not know any more stays unknown: only its
      submission, which is past, brings it. */
  lemma NeverBack(g: Cluster, move: Move, n: NodeId, cb: Callback)
    requires Ready(g) && Allowed(g, move) && CallbackInv(g.clients, g.commandOf)
    requires n in g.clients && cb in g.commandOf && !Holds(g.clients[n], cb) && n in After(g, move).clients
    ensures !Holds(After(g, move).clients[n], cb)
  {
    if Holds(After(g, move).clients[n], cb) {
      match move
      case RaftMove(step) => RaftBringsNone(g, step, n, cb);
      case Submit(m, cmd, own, capacity) =>
        if m == n {
          SubmittedIsNew(g, n, cmd, own, capacity);
        }
      case ProcessNext(m) => ProcessBringsNone(g, m, n, cb);
      case DeliverClient(p, capacity) =>
        if p.dst == n {
          DeliveryBringsNone(g, p, capacity);
        }
      case DropClient(p) =>
    }
  }

  lemma SubmittedIsNew(g: Cluster, n: NodeId, cmd: Command, own: Option<Callback>, capacity: nat)
    requires Ready(g) && n in g.clients && (own.Some? ==> own.value !in g.commandOf) && CallbackInv(g.clients, g.commandOf)
    ensures n in AfterSubmit(g, n, cmd, own, capacity).clients
    ensures forall cb: Callback :: Holds(AfterSubmit(g, n, cmd, own, capacity).clients[n], cb) ==> Holds(g.clients[n], cb) || own == Some(cb)
  {
    EnqueueKeeps(g.clients[n], g.raft.nodes[n], Request(cmd, if own.Some? then Local(own.value) else Silent), capacity);
  }

  lemma DeliveryBringsNone(g: Cluster, p: ClientPacket, capacity: nat)
    requires Ready(g) && p.dst in g.clients && CallbackInv(g.clients, g.commandOf)
    ensures p.dst in AfterClientDelivery(g, p, capacity).clients
    ensures forall cb: Callback :: Holds(AfterClientDelivery(g, p, capacity).clients[p.dst], cb) ==> Holds(g.clients[p.dst], cb)
  {
    var c, r := g.clients[p.dst], g.raft.nodes[p.dst];
    match p.msg
    case ApplyCommand(cmd, id) =>
      EnqueueKeeps(c, r, Request(cmd, if id.Some? then Remote(p.src, id.value) else Silent), capacity);
    case ApplyResponse(_, _) => ResponseKeepsCallbacks(c, r, p.msg);
  }

  /** The move from state k to state k + 1 loses the callback. */
  ghost predicate LostAt(states: seq<Cluster>, k: nat, n: NodeId, cb: Callback) {
    && k + 1 < |states| && Ready(states[k]) && n in states[k].clients
    && exists move :: Allowed(states[k], move) && states[k + 1] == After(states[k], move) && Loses(states[k], move, n, cb)
  }

  ghost predicate KnownAt(states: seq<Cluster>, k: nat, n: NodeId, cb: Callback) {
    k < |states| && n in states[k].clients && cb in states[k].commandOf && Holds(states[k].clients[n], cb)
  }

  /** The callback is on record, and its node is there. */
  ghost predicate OnRecord(g: Cluster, n: NodeId, cb: Callback) {
    n in g.clients && cb in g.commandOf
  }

  lemma StaysOnRecord(g: Cluster, move: Move, n: NodeId, cb: Callback)
    requires Ready(g) && Allowed(g, move) && OnRecord(g, n, cb)
    ensures OnRecord(After(g, move), n, cb)
  {
    match move
    case RaftMove(step) => RaftKeepsRecord(g, step, n, cb);
    case Submit(m, cmd, own, capacity) =>
    case ProcessNext(m) => ProcessIsProcess(g, m);
    case DeliverClient(p, capacity) =>
    case DropClient(p) =>
  }

  lemma RaftKeepsRecord(g: Cluster, step: Step, n: NodeId, cb: Callback)
    requires Ready(g) && Enabled(g.raft, step) && OnRecord(g, n, cb)
    ensures OnRecord(AfterRaft(g, step), n, cb)
  {
    match Actor(step)
    case Some(m) =>
    case None =>
  }

  lemma NodeFacts(g: Cluster, n: NodeId)
    requires ClusterInv(g) && CallbackInv(g.clients, g.commandOf) && n in g.clients
    ensures Sound(g.clients[n]) && WellFormedLog(g.raft.nodes[n].log)
  {
    assert NodeLogOk(g.raft.nodes[n], g.raft.hist);
  }

  /** Two moves with the same result lose the same. */
  lemma LostAtIff(states: seq<Cluster>, k: nat, move: Move, n: NodeId, cb: Callback)
    requires k + 1 < |states| && Ready(states[k]) && Allowed(states[k], move) && states[k + 1] == After(states[k], move)
    requires n in states[k].clients && Sound(states[k].clients[n]) && WellFormedLog(states[k].raft.nodes[n].log)
    requires Holds(states[k].clients[n], cb)
    ensures LostAt(states, k, n, cb) <==> Loses(states[k], move, n, cb)
  {
    MoveLosesIff(states[k], move, n, cb);
    forall other | Allowed(states[k], other) && states[k + 1] == After(states[k], other)
      ensures Loses(states[k], other, n, cb) <==> Loses(states[k], move, n, cb)
    {
      MoveLosesIff(states[k], other, n, cb);
    }
  }

  lemma OneMove(states: seq<Cluster>, k: nat, move: Move, n: NodeId, cb: Callback)
    requires k + 1 < |states| && Ready(states[k]) && Allowed(states[k], move) && states[k + 1] == After(states[k], move)
    requires OnRecord(states[k], n, cb) && CallbackInv(states[k].clients, states[k].commandOf)
    requires Sound(states[k].clients[n]) && WellFormedLog(states[k].raft.nodes[n].log)
    ensures OnRecord(states[k + 1], n, cb)
    ensures Holds(states[k + 1].clients[n], cb) <==> Holds(states[k].clients[n], cb) && !LostAt(states, k, n, cb)
  {
    StaysOnRecord(states[k], move, n, cb);
    if Holds(states[k].clients[n], cb) {
      MoveLosesIff(states[k], move, n, cb);
      LostAtIff(states, k, move, n, cb);
    } else {
      NeverBack(states[k], move, n, cb);
    }
  }

  lemma SessionFacts(states: seq<Cluster>, k: nat, n: NodeId)
    requires Session(states) && k < |states| && n in states[k].clients
    ensures Ready(states[k]) && CallbackInv(states[k].clients, states[k].commandOf)
    ensures Sound(states[k].clients[n]) && WellFormedLog(states[k].raft.nodes[n].log)
  {
    SessionKeeps(states, k);
    NodeFacts(states[k], n);
  }

  lemma SessionMove(states: seq<Cluster>, k: nat) returns (move: Move)
    requires Session(states) && k + 1 < |states|
    ensures Ready(states[k]) && Allowed(states[k], move) && states[k + 1] == After(states[k], move)
  {
    SessionMoves(states, k + 1);
    move :| Allowed(states[k], move) && states[k + 1] == After(states[k], move);
  }

  /** From one state of a session to the next. */
  lemma StepLosesIff(states: seq<Cluster>, k: nat, n: NodeId, cb: Callback)
    requires Session(states) && k + 1 < |states| && OnRecord(states[k], n, cb)
    ensures OnRecord(states[k + 1], n, cb)
    ensures KnownAt(states, k + 1, n, cb) <==> KnownAt(states, k, n, cb) && !LostAt(states, k, n, cb)
  {
    SessionFacts(states, k, n);
    var move := SessionMove(states, k);
    OneMove(states, k, move, n, cb);
  }

  lemma {:induction false} KnownWhileNotLost(states: seq<Cluster>, i: nat, j: nat, n: NodeId, cb: Callback)
    requires Session(states) && i <= j < |states| && KnownAt(states, i, n, cb)
    requires forall k: nat :: i <= k < j ==> !LostAt(states, k, n, cb)
    ensures KnownAt(states, j, n, cb)
    decreases j
  {
    if i < j {
      KnownWhileNotLost(states, i, j - 1, n, cb);
      StepLosesIff(states, j - 1, n, cb);
    }
  }

  lemma {:induction false} AlwaysOnRecord(states: seq<Cluster>, i: nat, j: nat, n: NodeId, cb: Callback)
    requires Session(states) && i <= j < |states| && OnRecord(states[i], n, cb)
    ensures OnRecord(states[j], n, cb)
    decreases j
  {
    if i < j {
      AlwaysOnRecord(states, i, j - 1, n, cb);
      StepLosesIff(states, j - 1, n, cb);
    }
  }

  lemma KnownBefore(states: seq<Cluster>, i: nat, j: nat, n: NodeId, cb: Callback)
    requires Session(states) && i <= j && j + 1 < |states| && OnRecord(states[i], n, cb) && KnownAt(states, j + 1, n, cb)
    ensures KnownAt(states, j, n, cb) && !LostAt(states, j, n, cb)
  {
    AlwaysOnRecord(states, i, j, n, cb);
    StepLosesIff(states, j, n, cb);
  }

  lemma {:induction false} KnownMeansNotLost(states: seq<Cluster>, i: nat, j: nat, n: NodeId, cb: Callback, k: nat)
    requires Session(states) && i <= k < j < |states| && OnRecord(states[i], n, cb) && KnownAt(states, j, n, cb)
    ensures !LostAt(states, k, n, cb)
    decreases j
  {
    KnownBefore(states, i, j - 1, n, cb);
    if k < j - 1 {
      KnownMeansNotLost(states, i, j - 1, n, cb, k);
    }
  }

  /** Over any stretch of a session, a callback that its node knows stays known, in
      the queue, waiting, or invoked, if and only if no move of the stretch loses it. */
  lemma KnownUntilLost(states: seq<Cluster>, i: nat, j: nat, n: NodeId, cb: Callback)
    requires Session(states) && i <= j < |states| && KnownAt(states, i, n, cb)
    ensures KnownAt(states, j, n, cb) <==> forall k: nat :: i <= k < j ==> !LostAt(states, k, n, cb)
  {
    if KnownAt(states, j, n, cb) {
      forall k: nat | i <= k < j ensures !LostAt(states, k, n, cb) {
        KnownMeansNotLost(states, i, j, n, cb, k);
      }
    }
    if forall k: nat :: i <= k < j ==> !LostAt(states, k, n, cb) {
      KnownWhileNotLost(states, i, j, n, cb);
    }
  }

  /** A submitted callback is known to its node right away. */
  lemma SubmittedIsKnown(g: Cluster, n: NodeId, cmd: Command, cb: Callback, capacity: nat)
    requires Ready(g) && Allowed(g, Submit(n, cmd, Some(cb), capacity))
    ensures var h := After(g, Submit(n, cmd, Some(cb), capacity));
            n in h.clients && cb in h.commandOf && h.commandOf[cb] == cmd && Holds(h.clients[n], cb)
  {
    SubmitLosesNothing(g, n, cmd, Some(cb), capacity, n, cb);
  }
}
