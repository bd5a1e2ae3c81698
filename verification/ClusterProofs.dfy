/** A success report always concerns the command that was submitted, and every
    callback is invoked at most once. */
module ClusterProofs {
  import opened Options
  import opened RaftTypes
  import opened RaftProtocol
  import opened RaftSystem
  import opened RaftElection
  import opened RaftLog
  import opened RaftApply
  import opened RaftClient
  import opened ClusterSystem

  // ---------------------------------------------------- Raft steps only add history

  lemma WinGrowsLogs(s: System, n: NodeId)
    requires ElectionInv(s) && LogInv(s) && n in s.nodes
    requires s.nodes[n].role == Candidate && Majority(s.nodes[n], s.nodes[n].votesCount)
    ensures LogsGrow(s.hist.termLog, AfterWin(s, n).hist.termLog)
  {
    BecomeLeaderFacts(s.nodes[n]);
    FreshTerm(s, n);
    FreshLogGrows(s.hist, n, s.nodes[n], BecomeLeader(s.nodes[n]), s.hist.counted[n]);
  }

  lemma FreshLogGrows(h: History, n: NodeId, before: Raft, after: Raft, quorum: set<NodeId>)
    requires |before.log| > 0 && after.term !in h.termLog
    ensures LogsGrow(h.termLog, RecordElection(h, n, before, after, quorum).termLog)
  {
  }

  lemma TimeoutGrowsLogs(s: System, n: NodeId)
    requires ElectionInv(s) && LogInv(s) && n in s.nodes && s.nodes[n].role != Leader
    ensures LogsGrow(s.hist.termLog, AfterTimeout(s, n).hist.termLog)
  {
    var u := AfterCandidacy(s, n);
    CandidacyStep(s, n);
    CandidacyKeepsLogs(s, n);
    CandidacyThenWin(s, n);
    if Majority(u.nodes[n], 1) {
      WinGrowsLogs(u, n);
    }
  }

  lemma ResponseGrowsLogs(s: System, p: Packet)
    requires ElectionInv(s) && LogInv(s) && p in s.net && p.dst in s.nodes && p.msg.ResponseVote?
    ensures LogsGrow(s.hist.termLog, AfterDelivery(s, p).hist.termLog)
  {
    if CountsVote(s.nodes[p.dst], p.msg) {
      var u := AfterCount(s, p);
      CountStep(s, p);
      CountKeepsLogs(s, p);
      CountThenWin(s, p);
      if Majority(u.nodes[p.dst], u.nodes[p.dst].votesCount) {
        WinGrowsLogs(u, p.dst);
      }
    }
  }

  lemma OtherDeliveryKeepsTermLogs(h: History, r: Raft, src: NodeId, msg: Message)
    requires |r.log| > 0 && r.id in h.counted && !msg.ResponseVote?
    ensures RecordReceive(h, r, src, msg).termLog == h.termLog
  {
  }

  lemma CommandGrowsLogs(s: System, n: NodeId, cmd: Command)
    requires ElectionsOk(s) && LogInv(s) && Running(s) && n in s.nodes && s.nodes[n].role == Leader
    ensures LogsGrow(s.hist.termLog, AfterAppend(s, n, cmd).hist.termLog)
  {
    assert NodeLogOk(s.nodes[n], s.hist);
    assert Elected(s.hist, s.nodes[n].term, n);
    CommandNode(s.nodes[n], s.hist, AfterAppend(s, n, cmd).hist, cmd);
  }

  lemma RaftGrows(s: System, step: Step)
    requires ElectionInv(s) && LogInv(s) && Enabled(s, step)
    ensures LogsGrow(s.hist.termLog, Next(s, step).hist.termLog)
    ensures AppliedGrows(s.hist.applied, Next(s, step).hist.applied)
  {
    TermLogsGrow(s, step);
    AppliedOnlyGrows(s, step);
  }

  lemma TermLogsGrow(s: System, step: Step)
    requires ElectionInv(s) && LogInv(s) && Enabled(s, step)
    ensures LogsGrow(s.hist.termLog, Next(s, step).hist.termLog)
  {
    match step
    case Timeout(n) => TimeoutGrowsLogs(s, n);
    case Deliver(p) =>
      if p.msg.ResponseVote? {
        ResponseGrowsLogs(s, p);
      } else {
        OtherDeliveryKeepsTermLogs(s.hist, s.nodes[p.dst], p.src, p.msg);
      }
    case AppendCommand(n, cmd) => CommandGrowsLogs(s, n, cmd);
    case _ =>
  }

  lemma AppliedOnlyGrows(s: System, step: Step)
    requires Running(s) && Enabled(s, step)
    ensures AppliedGrows(s.hist.applied, Next(s, step).hist.applied)
  {
    match step
    case Timeout(n) => TimeoutAppliesNothing(s, n);
    case Deliver(p) => DeliveryAppliesNothing(s, p);
    case _ =>
  }

  // ----------------------------------------------------- client operations are true

  lemma FailTrue(f: Facts, n: NodeId, c: Client, r: Raft, origin: Origin, reason: Reason)
    requires ClientTrue(f, n, c)
    ensures ClientTrue(f, n, Fail(c, r, origin, reason).0)
    ensures forall p :: p in Fail(c, r, origin, reason).1 ==> PacketTrue(f, p)
  {
  }

  lemma EnqueueTrue(f: Facts, n: NodeId, c: Client, r: Raft, req: Request, capacity: nat)
    requires ClientTrue(f, n, c) && RequestTrue(f, req)
    ensures ClientTrue(f, n, Enqueue(c, r, req, capacity).0)
    ensures forall p :: p in Enqueue(c, r, req, capacity).1 ==> PacketTrue(f, p)
  {
    if |c.queue| >= capacity {
      FailTrue(f, n, c, r, req.origin, QueueFull);
    }
  }

  lemma SubscribeTrue(f: Facts, n: NodeId, c: Client, idx: nat, w: Waiting)
    requires ClientTrue(f, n, c) && WaitingTrue(f, idx, w)
    ensures ClientTrue(f, n, Subscribe(c, idx, w))
  {
    var d := Subscribe(c, idx, w);
    forall x, j | x in d.waitingCommit && 0 <= j < |d.waitingCommit[x]| ensures WaitingTrue(f, x, d.waitingCommit[x][j]) {
      if x in c.waitingCommit && j < |c.waitingCommit[x]| {
        assert WaitingTrue(f, x, c.waitingCommit[x][j]);
      }
    }
  }

  lemma DequeueTrue(f: Facts, n: NodeId, c: Client)
    requires ClientTrue(f, n, c) && c.queue != []
    ensures ClientTrue(f, n, c.(queue := c.queue[1..])) && RequestTrue(f, c.queue[0])
  {
  }

  lemma LeaderChangedTrue(f: Facts, n: NodeId, c: Client)
    requires ClientTrue(f, n, c)
    ensures ClientTrue(f, n, OnLeaderChanged(c))
  {
    var d := OnLeaderChanged(c);
    forall k | 0 <= k < |d.fired| ensures FiredTrue(f, n, d.fired[k]) {
      if k < |c.fired| {
        assert FiredTrue(f, n, c.fired[k]);
      }
    }
  }

  lemma ResponseTrue(f: Facts, n: NodeId, c: Client, r: Raft, p: ClientPacket)
    requires ClientTrue(f, n, c)
    requires p.dst == n && p.msg.ApplyResponse? && PacketTrue(f, p)
    ensures ClientTrue(f, n, OnApplyResponse(c, r, p.msg))
  {
    var id := p.msg.reqId;
    if id in c.waitingReply {
      var cb := c.waitingReply[id];
      var rest := c.(waitingReply := c.waitingReply - {id});
      assert ClientTrue(f, n, rest);
      match p.msg.answer
      case Refused(reason) => FailTrue(f, n, rest, r, Local(cb), reason);
      case Placed(idx, term) =>
        assert ReplyTrue(f, n, id, cb);
        SubscribeTrue(f, n, rest, idx, Waiting(term, cb));
    }
  }

  /** The entry sits where its term's leader put it. */
  ghost predicate EntryAnchored(logs: TermLogs, e: Entry) {
    e.term in logs && 1 <= e.idx <= |logs[e.term]| && logs[e.term][e.idx - 1] == e
  }

  /** Subscribers whose term matches an applied entry waited for its command. */
  lemma ApplyEntryTrue(f: Facts, n: NodeId, c: Client, e: Entry, selfVer: nat)
    requires ClientTrue(f, n, c)
    requires EntryAnchored(f.logs, e)
    requires Supported(e.cmd, selfVer) ==> n in f.applied && Applied(f.applied[n], e)
    ensures ClientTrue(f, n, ApplyEntry(c, e, selfVer))
  {
    var d := ApplyEntry(c, e, selfVer);
    forall k | 0 <= k < |d.fired| ensures FiredTrue(f, n, d.fired[k]) {
      if k < |c.fired| {
        assert FiredTrue(f, n, c.fired[k]);
      } else {
        var w := c.waitingCommit[e.idx][k - |c.fired|];
        assert WaitingTrue(f, e.idx, w);
      }
    }
  }

  lemma {:induction false} ApplyEntriesTrue(f: Facts, n: NodeId, c: Client, es: seq<Entry>, selfVer: nat)
    requires ClientTrue(f, n, c)
    requires forall e :: e in es ==> EntryAnchored(f.logs, e)
    requires forall e :: e in es && Supported(e.cmd, selfVer) ==> n in f.applied && Applied(f.applied[n], e)
    ensures ClientTrue(f, n, ApplyEntries(c, es, selfVer))
  {
    if es != [] {
      var rest, last := es[..|es| - 1], es[|es| - 1];
      ApplyEntriesTrue(f, n, c, rest, selfVer);
      assert last in es;
      ApplyEntryTrue(f, n, ApplyEntries(c, rest, selfVer), last, selfVer);
    }
  }

  /** What the leader answers is true of the log it has just extended. */
  lemma LeadTrue(f: Facts, n: NodeId, c: Client, r: Raft, req: Request)
    requires ClientTrue(f, n, c) && RequestTrue(f, req) && WellFormedLog(r.log)
    requires r.term in f.logs && f.logs[r.term] == LeaderAppend(r, req.cmd).log
    ensures ClientTrue(f, n, Lead(c, r, req).0)
    ensures forall p :: p in Lead(c, r, req).2 ==> PacketTrue(f, p)
  {
    var idx := LastIdx(r.log) + 1;
    assert PlacedAt(f.logs, r.term, idx, req.cmd);
    match req.origin
    case Silent =>
    case Local(cb) => SubscribeTrue(f, n, c, idx, Waiting(r.term, cb));
    case Remote(_, _) =>
  }

  /** The histories after a forwarded request. */
  function Asked(f: Facts, n: NodeId, before: nat, after: nat, cmd: Command): Facts {
    f.(requested := Recorded(f.requested, n, before, after, cmd))
  }

  lemma ForwardTrue(f: Facts, n: NodeId, c: Client, r: Raft, req: Request, leader: NodeId)
    requires ClientTrue(f, n, c) && RequestTrue(f, req) && r.id == n
    ensures var (d, out) := Forward(c, r, req, leader);
            var g := Asked(f, n, c.counter, d.counter, req.cmd);
            ClientTrue(g, n, d) && Grows(f, g, n) && forall p :: p in out ==> PacketTrue(g, p)
  {
    var d := Forward(c, r, req, leader).0;
    var g := Asked(f, n, c.counter, d.counter, req.cmd);
    match req.origin
    case Silent =>
    case Remote(_, _) => FailTrue(f, n, c, r, req.origin, NotLeader);
    case Local(cb) =>
      assert (n, c.counter + 1) !in f.requested;
      assert Grows(f, g, n);
      GrowClient(f, g, n, n, c.(counter := c.counter + 1));
  }

  // ------------------------------------------------------------- cluster moves

  lemma SubmitKeepsTruth(f: Facts, clients: map<NodeId, Client>, traffic: multiset<ClientPacket>,
                         n: NodeId, r: Raft, req: Request, capacity: nat)
    requires AllTrue(f, clients, traffic) && n in clients
    requires req.origin.Local? ==> req.origin.cb !in f.commandOf
    requires !req.origin.Remote?
    ensures var g := if req.origin.Local? then f.(commandOf := f.commandOf[req.origin.cb := req.cmd]) else f;
            var (d, out) := Enqueue(clients[n], r, req, capacity);
            AllTrue(g, clients[n := d], traffic + out)
  {
    var g := if req.origin.Local? then f.(commandOf := f.commandOf[req.origin.cb := req.cmd]) else f;
    var (d, out) := Enqueue(clients[n], r, req, capacity);
    assert Grows(f, g, n);
    GrowClient(f, g, n, n, clients[n]);
    EnqueueTrue(g, n, clients[n], r, req, capacity);
    MoveKeepsTruth(f, g, clients, traffic, n, d, multiset{}, out);
    assert traffic - multiset{} + out == traffic + out;
  }

  lemma DeliveryKeepsTruth(f: Facts, clients: map<NodeId, Client>, traffic: multiset<ClientPacket>,
                           r: Raft, p: ClientPacket, capacity: nat)
    requires AllTrue(f, clients, traffic) && p in traffic && p.dst in clients
    ensures var c := clients[p.dst];
            var (d, out) := match p.msg
                            case ApplyCommand(_, _) => OnApplyCommand(c, r, p.src, p.msg, capacity)
                            case ApplyResponse(_, _) => (OnApplyResponse(c, r, p.msg), multiset{});
            AllTrue(f, clients[p.dst := d], traffic - multiset{p} + out)
  {
    var c := clients[p.dst];
    assert PacketTrue(f, p);
    match p.msg
    case ApplyCommand(cmd, id) =>
      var req := Request(cmd, if id.Some? then Remote(p.src, id.value) else Silent);
      EnqueueTrue(f, p.dst, c, r, req, capacity);
      var (d, out) := Enqueue(c, r, req, capacity);
      MoveKeepsTruth(f, f, clients, traffic, p.dst, d, multiset{p}, out);
    case ApplyResponse(_, _) =>
      ResponseTrue(f, p.dst, c, r, p);
      MoveKeepsTruth(f, f, clients, traffic, p.dst, OnApplyResponse(c, r, p.msg), multiset{p}, multiset{});
  }

  lemma LeadKeepsRaft(g: Cluster, n: NodeId, cmd: Command)
    requires ClusterInv(g) && n in g.clients && g.raft.nodes[n].role == Leader
    ensures ElectionInv(AfterAppend(g.raft, n, cmd)) && LogInv(AfterAppend(g.raft, n, cmd))
    ensures LogsGrow(g.raft.hist.termLog, AfterAppend(g.raft, n, cmd).hist.termLog)
    ensures WellFormedLog(g.raft.nodes[n].log)
  {
    AppendCommandKeeps(g.raft, n, cmd);
    CommandKeepsLogs(g.raft, n, cmd);
    CommandGrowsLogs(g.raft, n, cmd);
    assert NodeLogOk(g.raft.nodes[n], g.raft.hist);
  }

  lemma LeadKeepsTruth(f: Facts, clients: map<NodeId, Client>, traffic: multiset<ClientPacket>, n: NodeId, r: Raft)
    requires AllTrue(f, clients, traffic) && n in clients && clients[n].queue != [] && WellFormedLog(r.log)
    requires LogsGrow(f.logs, f.logs[r.term := LeaderAppend(r, clients[n].queue[0].cmd).log])
    ensures var req := clients[n].queue[0];
            var (d, _, out) := Lead(clients[n].(queue := clients[n].queue[1..]), r, req);
            AllTrue(f.(logs := f.logs[r.term := LeaderAppend(r, req.cmd).log]), clients[n := d], traffic + out)
  {
    var req, rest := clients[n].queue[0], clients[n].(queue := clients[n].queue[1..]);
    var g := f.(logs := f.logs[r.term := LeaderAppend(r, req.cmd).log]);
    assert Grows(f, g, n);
    DequeueTrue(f, n, clients[n]);
    GrowClient(f, g, n, n, rest);
    LeadTrue(g, n, rest, r, req);
    var (d, _, out) := Lead(rest, r, req);
    MoveKeepsTruth(f, g, clients, traffic, n, d, multiset{}, out);
    assert traffic - multiset{} + out == traffic + out;
  }

  lemma ForwardKeepsTruth(f: Facts, clients: map<NodeId, Client>, traffic: multiset<ClientPacket>, n: NodeId, r: Raft, leader: NodeId)
    requires AllTrue(f, clients, traffic) && n in clients && clients[n].queue != [] && r.id == n
    ensures var req := clients[n].queue[0];
            var (d, out) := Forward(clients[n].(queue := clients[n].queue[1..]), r, req, leader);
            AllTrue(Asked(f, n, clients[n].counter, d.counter, req.cmd), clients[n := d], traffic + out)
  {
    var req, rest := clients[n].queue[0], clients[n].(queue := clients[n].queue[1..]);
    var (d, out) := Forward(rest, r, req, leader);
    DequeueTrue(f, n, clients[n]);
    ForwardTrue(f, n, rest, r, req, leader);
    MoveKeepsTruth(f, Asked(f, n, rest.counter, d.counter, req.cmd), clients, traffic, n, d, multiset{}, out);
    assert traffic - multiset{} + out == traffic + out;
  }

  lemma FailKeepsTruth(f: Facts, clients: map<NodeId, Client>, traffic: multiset<ClientPacket>, n: NodeId, r: Raft)
    requires AllTrue(f, clients, traffic) && n in clients && clients[n].queue != []
    ensures var (d, out) := Fail(clients[n].(queue := clients[n].queue[1..]), r, clients[n].queue[0].origin, MissingLeader);
            AllTrue(f, clients[n := d], traffic + out) && d.counter == clients[n].counter
  {
    var req, rest := clients[n].queue[0], clients[n].(queue := clients[n].queue[1..]);
    var (d, out) := Fail(rest, r, req.origin, MissingLeader);
    DequeueTrue(f, n, clients[n]);
    FailTrue(f, n, rest, r, req.origin, MissingLeader);
    MoveKeepsTruth(f, f, clients, traffic, n, d, multiset{}, out);
    assert traffic - multiset{} + out == traffic + out;
  }

  ghost predicate ClientsInv(g: Cluster) {
    Ready(g) && AllTrue(FactsOf(g), g.clients, g.traffic)
  }

  lemma AppendKeepsRunning(s: System, n: NodeId, cmd: Command)
    requires Running(s) && n in s.nodes
    ensures Running(AfterAppend(s, n, cmd)) && AfterAppend(s, n, cmd).nodes.Keys == s.nodes.Keys
  {
  }

  lemma LeadKeepsClients(g: Cluster, n: NodeId)
    requires ClientsInv(g) && n in g.clients && g.clients[n].queue != [] && WellFormedLog(g.raft.nodes[n].log)
    requires LogsGrow(g.raft.hist.termLog, AfterAppend(g.raft, n, g.clients[n].queue[0].cmd).hist.termLog)
    ensures ClientsInv(AfterLead(g, n))
  {
    var h, r, cmd := AfterLead(g, n), g.raft.nodes[n], g.clients[n].queue[0].cmd;
    assert FactsOf(h) == FactsOf(g).(logs := g.raft.hist.termLog[r.term := LeaderAppend(r, cmd).log]);
    LeadKeepsTruth(FactsOf(g), g.clients, g.traffic, n, r);
    AppendKeepsRunning(g.raft, n, cmd);
  }

  lemma ForwardKeepsClients(g: Cluster, n: NodeId, leader: NodeId)
    requires ClientsInv(g) && n in g.clients && g.clients[n].queue != []
    ensures ClientsInv(AfterForward(g, n, leader))
  {
    var h := AfterForward(g, n, leader);
    ForwardKeepsTruth(FactsOf(g), g.clients, g.traffic, n, g.raft.nodes[n], leader);
    assert AllTrue(FactsOf(h), h.clients, h.traffic);
  }

  lemma MissingKeepsClients(g: Cluster, n: NodeId)
    requires ClientsInv(g) && n in g.clients && g.clients[n].queue != []
    ensures ClientsInv(AfterMissing(g, n))
  {
    var h := AfterMissing(g, n);
    FailKeepsTruth(FactsOf(g), g.clients, g.traffic, n, g.raft.nodes[n]);
    assert AllTrue(FactsOf(h), h.clients, h.traffic);
  }

  lemma SubmitKeepsClients(g: Cluster, n: NodeId, cmd: Command, cb: Option<Callback>, capacity: nat)
    requires ClientsInv(g) && n in g.clients && (cb.Some? ==> cb.value !in g.commandOf)
    ensures ClientsInv(AfterSubmit(g, n, cmd, cb, capacity))
  {
    var req := Request(cmd, if cb.Some? then Local(cb.value) else Silent);
    SubmitKeepsTruth(FactsOf(g), g.clients, g.traffic, n, g.raft.nodes[n], req, capacity);
    SubmitIs(g, n, cmd, cb, capacity);
  }

  lemma SubmitIs(g: Cluster, n: NodeId, cmd: Command, cb: Option<Callback>, capacity: nat)
    requires Ready(g) && n in g.clients
    ensures var req := Request(cmd, if cb.Some? then Local(cb.value) else Silent);
            var (d, out) := Enqueue(g.clients[n], g.raft.nodes[n], req, capacity);
            var h := AfterSubmit(g, n, cmd, cb, capacity);
            && Ready(h) && h.clients == g.clients[n := d] && h.traffic == g.traffic + out
            && FactsOf(h) == if req.origin.Local? then FactsOf(g).(commandOf := FactsOf(g).commandOf[req.origin.cb := req.cmd]) else FactsOf(g)
  {
  }

  lemma DeliveryKeepsClients(g: Cluster, p: ClientPacket, capacity: nat)
    requires ClientsInv(g) && p in g.traffic && p.dst in g.clients
    ensures ClientsInv(AfterClientDelivery(g, p, capacity))
  {
    DeliveryKeepsTruth(FactsOf(g), g.clients, g.traffic, g.raft.nodes[p.dst], p, capacity);
    DeliveryIs(g, p, capacity);
  }

  lemma DeliveryIs(g: Cluster, p: ClientPacket, capacity: nat)
    requires Ready(g) && p.dst in g.clients
    ensures var c := g.clients[p.dst];
            var (d, out) := match p.msg
                            case ApplyCommand(_, _) => OnApplyCommand(c, g.raft.nodes[p.dst], p.src, p.msg, capacity)
                            case ApplyResponse(_, _) => (OnApplyResponse(c, g.raft.nodes[p.dst], p.msg), multiset{});
            var h := AfterClientDelivery(g, p, capacity);
            Ready(h) && h.clients == g.clients[p.dst := d] && h.traffic == g.traffic - multiset{p} + out && FactsOf(h) == FactsOf(g)
  {
  }

  lemma DropKeepsClients(g: Cluster, p: ClientPacket)
    requires ClientsInv(g) && p in g.traffic
    ensures ClientsInv(g.(traffic := g.traffic - multiset{p}))
  {
  }

  lemma ProcessKeepsCluster(g: Cluster, n: NodeId)
    requires ClusterInv(g) && n in g.clients && g.clients[n].queue != []
    ensures ClusterInv(AfterProcess(g, n))
  {
    var r := g.raft.nodes[n];
    if r.role == Leader {
      LeadKeepsRaft(g, n, g.clients[n].queue[0].cmd);
      LeadKeepsClients(g, n);
    } else if r.leader.Some? {
      ForwardKeepsClients(g, n, r.leader.value);
    } else {
      MissingKeepsClients(g, n);
    }
  }

  // ------------------------------------------------------- moves of the Raft part

  lemma UnappliedAnchored(r: Raft, h: History)
    requires NodeLogOk(r, h)
    ensures forall e :: e in Unapplied(r) ==> EntryAnchored(h.termLog, e)
  {
    var es := Unapplied(r);
    forall e | e in es ensures EntryAnchored(h.termLog, e) {
      var i :| 0 <= i < |es| && es[i] == e;
      UnappliedAt(r, i);
      LoggedAnchored(r.log, r.lastApplied + i, h.termLog);
    }
  }

  lemma UnappliedAt(r: Raft, i: nat)
    requires WellFormedLog(r.log) && i < |Unapplied(r)|
    ensures r.lastApplied + i < |r.log| && Unapplied(r)[i] == r.log[r.lastApplied + i]
  {
  }

  lemma LoggedAnchored(log: Log, k: nat, logs: TermLogs)
    requires Anchored(log, logs) && k < |log|
    ensures EntryAnchored(logs, log[k])
  {
    assert AnchoredAt(log, k, logs);
  }

  lemma ExecutedIsApplied(h: History, r: Raft, e: Entry)
    requires |r.log| > 0 && r.id in h.epoch && r.id in h.applied
    requires e in Unapplied(r) && Supported(e.cmd, r.selfVer)
    ensures Applied(RecordApply(h, r).applied[r.id], e)
  {
    var x := Executed(Unapplied(r), r.selfVer);
    var i :| 0 <= i < |x| && x[i] == e;
    assert RecordApply(h, r).applied[r.id][|h.applied[r.id]| + i].entry == e;
  }

  lemma ApplyTrue(f: Facts, h: History, c: Client, r: Raft)
    requires NodeLogOk(r, h) && r.id in h.applied && ClientTrue(f, r.id, c)
    requires f.logs == h.termLog && f.applied == RecordApply(h, r).applied
    ensures ClientTrue(f, r.id, ApplyEntries(c, Unapplied(r), r.selfVer))
  {
    var es := Unapplied(r);
    UnappliedAnchored(r, h);
    forall e | e in es && Supported(e.cmd, r.selfVer) ensures Applied(f.applied[r.id], e) {
      ExecutedIsApplied(h, r, e);
    }
    ApplyEntriesTrue(f, r.id, c, es, r.selfVer);
  }

  lemma SideEffectTrue(g: Cluster, step: Step, n: NodeId, f: Facts)
    requires Ready(g) && LogInv(g.raft) && n in g.clients && ClientTrue(f, n, g.clients[n]) && Actor(step) == Some(n)
    requires step.Apply? ==> f.logs == g.raft.hist.termLog && f.applied == RecordApply(g.raft.hist, g.raft.nodes[n]).applied
    ensures ClientTrue(f, n, SideEffect(g.clients[n], g.raft.nodes[n], step))
  {
    if step.Apply? {
      assert NodeLogOk(g.raft.nodes[n], g.raft.hist);
      ApplyTrue(f, g.raft.hist, g.clients[n], g.raft.nodes[n]);
    } else {
      LeaderChangedTrue(f, n, g.clients[n]);
    }
  }

  lemma TruthGrows(f: Facts, g: Facts, clients: map<NodeId, Client>, traffic: multiset<ClientPacket>)
    requires AllTrue(f, clients, traffic) && LogsGrow(f.logs, g.logs) && AppliedGrows(f.applied, g.applied)
    requires g.commandOf == f.commandOf && g.requested == f.requested
    ensures AllTrue(g, clients, traffic)
  {
    forall m | m in clients ensures ClientTrue(g, m, clients[m]) {
      GrowClient(f, g, m, m, clients[m]);
    }
    forall p | p in traffic ensures PacketTrue(g, p) {
      GrowClientPacket(f, g, 0, p);
    }
  }

  /** The Raft part moved from g.raft to t. */
  ghost predicate RaftMoved(g: Cluster, t: System)
    requires Running(g.raft)
  {
    && Running(t) && t.nodes.Keys == g.raft.nodes.Keys
    && LogsGrow(g.raft.hist.termLog, t.hist.termLog) && AppliedGrows(g.raft.hist.applied, t.hist.applied)
  }

  lemma PlainMoveKeeps(g: Cluster, t: System)
    requires ClientsInv(g) && RaftMoved(g, t)
    ensures ClientsInv(WithRaft(g, t))
  {
    TruthGrows(FactsOf(g), FactsOf(WithRaft(g, t)), g.clients, g.traffic);
  }

  lemma EffectKeepsTruth(f: Facts, k: Facts, clients: map<NodeId, Client>, traffic: multiset<ClientPacket>, n: NodeId, c: Client)
    requires AllTrue(f, clients, traffic) && ClientTrue(k, n, c)
    requires LogsGrow(f.logs, k.logs) && AppliedGrows(f.applied, k.applied)
    requires k.commandOf == f.commandOf && k.requested == f.requested
    ensures AllTrue(k, clients[n := c], traffic)
  {
    TruthGrows(f, k, clients, traffic);
  }

  lemma EffectKeeps(g: Cluster, t: System, n: NodeId, c: Client)
    requires ClientsInv(g) && RaftMoved(g, t) && n in g.clients
    requires ClientTrue(FactsOf(WithRaft(g, t)), n, c)
    ensures ClientsInv(WithEffect(g, t, n, c))
  {
    EffectReady(g, t, n, c);
    EffectTrue(g, t, n, c);
  }

  lemma EffectReady(g: Cluster, t: System, n: NodeId, c: Client)
    requires Ready(g) && RaftMoved(g, t) && n in g.clients
    ensures Ready(WithEffect(g, t, n, c))
  {
  }

  lemma EffectTrue(g: Cluster, t: System, n: NodeId, c: Client)
    requires Ready(g) && AllTrue(FactsOf(g), g.clients, g.traffic) && RaftMoved(g, t)
    requires ClientTrue(FactsOf(WithRaft(g, t)), n, c)
    ensures AllTrue(FactsOf(WithEffect(g, t, n, c)), g.clients[n := c], g.traffic)
  {
    EffectKeepsTruth(FactsOf(g), FactsOf(WithEffect(g, t, n, c)), g.clients, g.traffic, n, c);
  }

  lemma GrownClient(g: Cluster, t: System, n: NodeId)
    requires ClientsInv(g) && RaftMoved(g, t) && n in g.clients
    ensures ClientTrue(FactsOf(WithRaft(g, t)), n, g.clients[n])
  {
    assert ClientTrue(FactsOf(g), n, g.clients[n]);
    GrowClient(FactsOf(g), FactsOf(WithRaft(g, t)), n, n, g.clients[n]);
  }

  lemma RaftKeepsClients(g: Cluster, t: System, step: Step)
    requires ClientsInv(g) && RaftMoved(g, t) && LogInv(g.raft)
    requires Actor(step).Some? ==> Actor(step).value in g.clients
    requires step.Apply? ==> t.hist.termLog == g.raft.hist.termLog
                             && t.hist.applied == RecordApply(g.raft.hist, g.raft.nodes[step.n]).applied
    ensures match Actor(step)
            case Some(n) => ClientsInv(WithEffect(g, t, n, SideEffect(g.clients[n], g.raft.nodes[n], step)))
            case None => ClientsInv(WithRaft(g, t))
  {
    match Actor(step)
    case None => PlainMoveKeeps(g, t);
    case Some(n) =>
      GrownClient(g, t, n);
      SideEffectTrue(g, step, n, FactsOf(WithRaft(g, t)));
      EffectKeeps(g, t, n, SideEffect(g.clients[n], g.raft.nodes[n], step));
  }

  lemma RaftPartMoves(g: Cluster, step: Step)
    requires ClusterInv(g) && Enabled(g.raft, step)
    ensures ElectionInv(Next(g.raft, step)) && LogInv(Next(g.raft, step)) && RaftMoved(g, Next(g.raft, step))
  {
    StepKeeps(g.raft, step);
    StepKeepsLogs(g.raft, step);
    RaftGrows(g.raft, step);
    SameMembers(g.raft, step);
  }

  lemma ApplyHistory(s: System, step: Step)
    requires Running(s) && Enabled(s, step) && step.Apply?
    ensures Next(s, step).hist.termLog == s.hist.termLog
    ensures Next(s, step).hist.applied == RecordApply(s.hist, s.nodes[step.n]).applied
  {
  }

  lemma RaftKeepsAll(g: Cluster, step: Step)
    requires ClientsInv(g) && LogInv(g.raft) && Enabled(g.raft, step) && RaftMoved(g, Next(g.raft, step))
    ensures ClientsInv(AfterRaft(g, step)) && AfterRaft(g, step).raft == Next(g.raft, step)
  {
    if step.Apply? {
      ApplyHistory(g.raft, step);
    }
    RaftKeepsClients(g, Next(g.raft, step), step);
  }

  lemma RaftKeepsCluster(g: Cluster, step: Step)
    requires ClusterInv(g) && Enabled(g.raft, step)
    ensures ClusterInv(AfterRaft(g, step))
  {
    RaftPartMoves(g, step);
    RaftKeepsAll(g, step);
  }

  lemma MoveKeeps(g: Cluster, move: Move)
    requires ClusterInv(g) && Allowed(g, move)
    ensures ClusterInv(After(g, move))
  {
    match move
    case RaftMove(step) => RaftKeepsCluster(g, step);
    case Submit(n, cmd, cb, capacity) => SubmitKeepsClients(g, n, cmd, cb, capacity);
    case ProcessNext(n) => ProcessKeepsCluster(g, n);
    case DeliverClient(p, capacity) => DeliveryKeepsClients(g, p, capacity);
    case DropClient(p) => DropKeepsClients(g, p);
  }
}
