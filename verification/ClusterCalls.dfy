/** Who is told what over whole sessions: every callback that waits for an entry learns
    its fate when the entry is applied, and a failure always has its reason. */
module ClusterCalls {
  import opened Options
  import opened RaftTypes
  import opened RaftProtocol
  import opened RaftSystem
  import opened RaftLog
  import opened RaftClient
  import opened RaftCalls
  import opened ClusterSystem
  import opened ClusterResults

  lemma NodeReady(states: seq<Cluster>, k: nat, n: NodeId)
    requires Session(states) && k < |states| && n in states[k].clients
    ensures n in states[k].raft.nodes
    ensures var r := states[k].raft.nodes[n]; WellFormedLog(r.log) && r.commitIndex <= |r.log|
  {
    SessionKeeps(states, k);
    assert NodeLogOk(states[k].raft.nodes[n], states[k].raft.hist);
  }

  /** When a node applies what is due, it tells, in the order of the entries and for each
      in the order of subscription, exactly the callbacks that wait for those that do
      not raise: success to those that wait for the term of the entry, and to the others
      that their command was discarded. */
  lemma AppliedCalls(states: seq<Cluster>, k: nat, n: NodeId)
    requires Session(states) && k + 1 < |states| && n in states[k].clients && Ready(states[k])
    requires states[k + 1] == After(states[k], RaftMove(Apply(n)))
    ensures n in states[k + 1].clients && n in states[k].raft.nodes
    ensures var r, c, d := states[k].raft.nodes[n], states[k].clients[n], states[k + 1].clients[n];
            ToldAll(c, d, Due(r), |Due(r)|, r.selfVer)
  {
    NodeReady(states, k, n);
    var r := states[k].raft.nodes[n];
    DueCalls(states[k].clients[n], r);
  }

  lemma WaitsTruly(states: seq<Cluster>, k: nat, n: NodeId, idx: nat, j: nat)
    requires Session(states) && k < |states| && n in states[k].clients
    requires j < |WaitingAt(states[k].clients[n], idx)|
    ensures var w := WaitingAt(states[k].clients[n], idx)[j];
            w.cb in states[k].commandOf && PlacedAt(states[k].raft.hist.termLog, w.term, idx, states[k].commandOf[w.cb])
  {
    SessionKeeps(states, k);
    var f, c := FactsOf(states[k]), states[k].clients[n];
    assert ClientTrue(f, n, c);
    assert WaitingTrue(f, idx, c.waitingCommit[idx][j]);
  }

  /** The entry of an index and term is the one that the leader of the term put there. */
  lemma LoggedIsPlaced(states: seq<Cluster>, k: nat, n: NodeId, idx: nat, cmd: Command)
    requires Session(states) && k < |states| && n in states[k].raft.nodes && 1 <= idx <= |states[k].raft.nodes[n].log|
    requires PlacedAt(states[k].raft.hist.termLog, states[k].raft.nodes[n].log[idx - 1].term, idx, cmd)
    ensures states[k].raft.nodes[n].log[idx - 1].cmd == cmd
  {
    SessionKeeps(states, k);
    var log := states[k].raft.nodes[n].log;
    assert NodeLogOk(states[k].raft.nodes[n], states[k].raft.hist);
    assert AnchoredAt(log, idx - 1, states[k].raft.hist.termLog);
  }

  /** Success for one's own command: a callback that waits for an index and term is told
      success, with the command it was submitted with, when its node applies the entry
      of that index and term, unless the command raises. */
  lemma OwnCommandSucceeds(states: seq<Cluster>, k: nat, n: NodeId, idx: nat, j: nat)
    requires Session(states) && k + 1 < |states| && n in states[k].clients && Ready(states[k])
    requires states[k + 1] == After(states[k], RaftMove(Apply(n)))
    requires var r := states[k].raft.nodes[n]; r.lastApplied < idx <= r.commitIndex && idx <= |r.log|
    requires j < |WaitingAt(states[k].clients[n], idx)|
    requires var e := states[k].raft.nodes[n].log[idx - 1];
             WaitingAt(states[k].clients[n], idx)[j].term == e.term && !Raises(e.cmd, states[k].raft.nodes[n].selfVer)
    ensures var e, cb := states[k].raft.nodes[n].log[idx - 1], WaitingAt(states[k].clients[n], idx)[j].cb;
            && n in states[k + 1].clients && Fired(cb, Success(e)) in states[k + 1].clients[n].fired
            && cb in states[k].commandOf && e.cmd == states[k].commandOf[cb]
  {
    NodeReady(states, k, n);
    AppliedCalls(states, k, n);
    WaitsTruly(states, k, n, idx, j);
    LoggedIsPlaced(states, k, n, idx, states[k].commandOf[WaitingAt(states[k].clients[n], idx)[j].cb]);
    CallAtIndex(states[k].raft.nodes[n], states[k].clients[n], states[k + 1].clients[n], idx, j);
  }

  lemma CallAtIndex(r: Raft, c: Client, d: Client, idx: nat, j: nat)
    requires WellFormedLog(r.log) && r.lastApplied < idx <= r.commitIndex <= |r.log| && j < |WaitingAt(c, idx)|
    requires ToldAll(c, d, Due(r), |Due(r)|, r.selfVer) && !Raises(r.log[idx - 1].cmd, r.selfVer)
    ensures CallFor(WaitingAt(c, idx)[j], r.log[idx - 1]) in d.fired
  {
    var q := idx - 1 - r.lastApplied;
    assert Due(r)[q] == r.log[idx - 1] && r.log[idx - 1].idx == idx;
    assert ToldAt(c, d, Due(r), q, r.selfVer);
    var at := |c.fired| + CallsBefore(c, Due(r), q, r.selfVer);
    assert d.fired[at + j] == CallFor(WaitingAt(c, idx)[j], r.log[idx - 1]);
  }

  // ------------------------------------------------------------- why a callback failed

  /** The leader, or the node taken for it, refused the request of the callback. */
  predicate RefusedThere(c: Client, move: Move, n: NodeId, cb: Callback, reason: Reason) {
    && move.DeliverClient? && move.p.dst == n && move.p.msg.ApplyResponse? && move.p.msg.answer == Refused(reason)
    && move.p.msg.reqId in c.waitingReply && c.waitingReply[move.p.msg.reqId] == cb
  }

  /** The move brings the node to another leader, or to none. */
  predicate LosesLeader(r: Raft, move: Move, n: NodeId) {
    || move == RaftMove(Timeout(n))
    || (move.RaftMove? && move.step.Deliver? && move.step.p.dst == n && IsAppend(move.step.p.msg)
        && move.step.p.msg.term >= r.term && r.leader != Some(move.step.p.src))
  }

  /** The callback waits for an entry that is due, under another term. */
  ghost predicate Overtaken(c: Client, r: Raft, cb: Callback) {
    exists q, j :: 0 <= q < |Due(r)| && 0 <= j < |WaitingAt(c, Due(r)[q].idx)| &&
      var w := WaitingAt(c, Due(r)[q].idx)[j]; w.cb == cb && w.term != Due(r)[q].term
  }

  /** Why node n may tell a callback of its own, in this move, that it failed. */
  ghost predicate Reasoned(c: Client, r: Raft, move: Move, n: NodeId, cb: Callback, reason: Reason) {
    || RefusedThere(c, move, n, cb, reason)
    || match reason
       case QueueFull => move.Submit? && move.n == n && move.cb == Some(cb) && |c.queue| >= move.capacity
       case MissingLeader =>
         move == ProcessNext(n) && c.queue != [] && c.queue[0].origin == Local(cb) && r.role != Leader && r.leader.None?
       case NotLeader => false
       case LeaderChanged => LosesLeader(r, move, n) && cb in c.waitingReply.Values
       case Discarded => move == RaftMove(Apply(n)) && Overtaken(c, r, cb)
  }

  /** The calls behind the first `from` that report a failure have their reason. */
  ghost predicate AllReasoned(fired: seq<Fired>, from: nat, c: Client, r: Raft, move: Move, n: NodeId) {
    forall i :: from <= i < |fired| && fired[i].outcome.Failure? ==> Reasoned(c, r, move, n, fired[i].cb, fired[i].outcome.reason)
  }

  /** Every new call is one of those that are told. */
  lemma {:induction false} CallHasEntry(c: Client, d: Client, es: seq<Entry>, q: nat, selfVer: nat, i: nat) returns (k: nat, j: nat)
    requires q <= |es| && ToldAll(c, d, es, |es|, selfVer) && |c.fired| <= i < |c.fired| + CallsBefore(c, es, q, selfVer)
    requires i < |d.fired|
    ensures k < q && !Raises(es[k].cmd, selfVer) && j < |WaitingAt(c, es[k].idx)| && d.fired[i] == CallFor(WaitingAt(c, es[k].idx)[j], es[k])
  {
    if i < |c.fired| + CallsBefore(c, es, q - 1, selfVer) {
      k, j := CallHasEntry(c, d, es, q - 1, selfVer, i);
    } else {
      k, j := q - 1, i - |c.fired| - CallsBefore(c, es, q - 1, selfVer);
      assert ToldAt(c, d, es, q - 1, selfVer);
    }
  }

  lemma AppliedReasoned(c: Client, r: Raft, n: NodeId)
    requires WellFormedLog(r.log) && r.commitIndex <= |r.log|
    ensures AllReasoned(ApplyEntries(c, Unapplied(r), r.selfVer).fired, |c.fired|, c, r, RaftMove(Apply(n)), n)
  {
    var es, d := Due(r), ApplyEntries(c, Unapplied(r), r.selfVer);
    DueIsUnapplied(r);
    DueDistinct(r);
    PassCalls(c, es, r.selfVer);
    forall i | |c.fired| <= i < |d.fired| && d.fired[i].outcome.Failure?
      ensures Reasoned(c, r, RaftMove(Apply(n)), n, d.fired[i].cb, d.fired[i].outcome.reason)
    {
      var k, j := CallHasEntry(c, d, es, |es|, r.selfVer, i);
      assert WaitingAt(c, es[k].idx)[j].cb == d.fired[i].cb;
    }
  }

  lemma ChangedReasoned(c: Client, r: Raft, step: Step, n: NodeId)
    requires LosesLeader(r, RaftMove(step), n)
    ensures AllReasoned(OnLeaderChanged(c).fired, |c.fired|, c, r, RaftMove(step), n)
  {
    LeaderChangedCalls(c);
    var d := OnLeaderChanged(c);
    forall i | |c.fired| <= i < |d.fired| ensures Reasoned(c, r, RaftMove(step), n, d.fired[i].cb, d.fired[i].outcome.reason) {
      assert d.fired[i].outcome == Failure(LeaderChanged);
    }
  }

  lemma SilentReasoned(c: Client, r: Raft, move: Move, n: NodeId)
    ensures AllReasoned(c.fired, |c.fired|, c, r, move, n)
  {
  }

  lemma StepReasoned(c: Client, r: Raft, step: Step, n: NodeId)
    requires WellFormedLog(r.log) && r.commitIndex <= |r.log| && Actor(step) == Some(n)
    ensures AllReasoned(SideEffect(c, r, step).fired, |c.fired|, c, r, RaftMove(step), n)
  {
    if step.Apply? {
      AppliedReasoned(c, r, n);
    } else if LosesLeader(r, RaftMove(step), n) {
      ChangedReasoned(c, r, step, n);
    } else {
      SilentReasoned(c, r, RaftMove(step), n);
    }
  }

  lemma ClientReasoned(c: Client, r: Raft, p: ClientPacket, capacity: nat)
    ensures var d := match p.msg
                     case ApplyCommand(_, _) => OnApplyCommand(c, r, p.src, p.msg, capacity).0
                     case ApplyResponse(_, _) => OnApplyResponse(c, r, p.msg);
            AllReasoned(d.fired, |c.fired|, c, r, DeliverClient(p, capacity), p.dst)
  {
    match p.msg
    case ApplyCommand(_, _) =>
      EnqueueCalls(c, r, Request(p.msg.cmd, if p.msg.id.Some? then Remote(p.src, p.msg.id.value) else Silent), capacity);
    case ApplyResponse(_, _) => AnswerCalls(c, r, p.msg);
  }

  /** A failure has its reason: in any move of a session, a callback that its node is
      told to fail with full queue, missing leader, changed leader or discarded command
      was refused by the node it was forwarded to, or found the queue full, no leader,
      another leader, or an entry of another term at its index. */
  lemma FailureHasReason(states: seq<Cluster>, k: nat, move: Move, n: NodeId)
    requires Session(states) && k + 1 < |states| && Ready(states[k]) && Allowed(states[k], move)
    requires states[k + 1] == After(states[k], move) && n in states[k].clients
    ensures n in states[k].raft.nodes && n in states[k + 1].clients
    ensures AllReasoned(states[k + 1].clients[n].fired, |states[k].clients[n].fired|, states[k].clients[n], states[k].raft.nodes[n], move, n)
  {
    NodeReady(states, k, n);
    MoveReasoned(states[k], move, n);
  }

  lemma SubmitReasoned(c: Client, r: Raft, n: NodeId, cmd: Command, cb: Option<Callback>, capacity: nat)
    ensures var d := Enqueue(c, r, Request(cmd, if cb.Some? then Local(cb.value) else Silent), capacity).0;
            AllReasoned(d.fired, |c.fired|, c, r, Submit(n, cmd, cb, capacity), n)
  {
    EnqueueCalls(c, r, Request(cmd, if cb.Some? then Local(cb.value) else Silent), capacity);
  }

  lemma ProcessReasoned(c: Client, r: Raft, n: NodeId)
    requires |r.log| > 0 && c.queue != []
    ensures AllReasoned(Process(c, r).0.fired, |c.fired|, c, r, ProcessNext(n), n)
  {
    ProcessCalls(c, r);
  }

  lemma RaftMoveReasoned(g: Cluster, step: Step, n: NodeId)
    requires Ready(g) && Enabled(g.raft, step) && n in g.clients
    requires WellFormedLog(g.raft.nodes[n].log) && g.raft.nodes[n].commitIndex <= |g.raft.nodes[n].log|
    ensures n in AfterRaft(g, step).clients
    ensures AllReasoned(AfterRaft(g, step).clients[n].fired, |g.clients[n].fired|, g.clients[n], g.raft.nodes[n], RaftMove(step), n)
  {
    if Actor(step) == Some(n) {
      StepReasoned(g.clients[n], g.raft.nodes[n], step, n);
    } else {
      assert AfterRaft(g, step).clients[n] == g.clients[n];
    }
  }

  lemma OwnMoveReasoned(g: Cluster, move: Move, n: NodeId)
    requires Ready(g) && Allowed(g, move) && n in g.clients && (move.Submit? || move.ProcessNext?)
    ensures n in After(g, move).clients
    ensures AllReasoned(After(g, move).clients[n].fired, |g.clients[n].fired|, g.clients[n], g.raft.nodes[n], move, n)
  {
    match move
    case Submit(m, cmd, cb, capacity) =>
      if m == n {
        SubmitReasoned(g.clients[n], g.raft.nodes[n], n, cmd, cb, capacity);
      }
    case ProcessNext(m) =>
      ProcessIsProcess(g, m);
      if m == n {
        ProcessReasoned(g.clients[n], g.raft.nodes[n], n);
      }
  }

  lemma DeliveryReasoned(g: Cluster, p: ClientPacket, capacity: nat, n: NodeId)
    requires Ready(g) && p.dst in g.clients && n in g.clients
    ensures n in AfterClientDelivery(g, p, capacity).clients
    ensures AllReasoned(AfterClientDelivery(g, p, capacity).clients[n].fired, |g.clients[n].fired|, g.clients[n], g.raft.nodes[n],
                        DeliverClient(p, capacity), n)
  {
    if p.dst == n {
      ClientReasoned(g.clients[n], g.raft.nodes[n], p, capacity);
    }
  }

  lemma MoveReasoned(g: Cluster, move: Move, n: NodeId)
    requires Ready(g) && Allowed(g, move) && n in g.clients
    requires WellFormedLog(g.raft.nodes[n].log) && g.raft.nodes[n].commitIndex <= |g.raft.nodes[n].log|
    ensures n in After(g, move).clients
    ensures AllReasoned(After(g, move).clients[n].fired, |g.clients[n].fired|, g.clients[n], g.raft.nodes[n], move, n)
  {
    match move
    case RaftMove(step) => RaftMoveReasoned(g, step, n);
    case Submit(_, _, _, _) => OwnMoveReasoned(g, move, n);
    case ProcessNext(_) => OwnMoveReasoned(g, move, n);
    case DeliverClient(p, capacity) => DeliveryReasoned(g, p, capacity, n);
    case DropClient(_) =>
  }
}
