/** A fixed set of nodes and a network that may lose and reorder messages but
    does not duplicate them. History variables record votes, elections, the log
    of each term's leader, and what each node applied. */
module RaftSystem {
  import opened RaftTypes
  import opened RaftProtocol

  /** The end of a log: the pair a candidate sends with its request. */
  datatype Position = Position(term: nat, idx: nat)

  datatype Ballot = Ballot(candidate: NodeId, position: Position)

  datatype Election = Election(term: nat, leader: NodeId, quorum: set<NodeId>, position: Position)

  /** An applied entry and the epoch it was applied in: the term of the last
      append the node accepted, or of its own last election. */
  datatype Application = Application(entry: Entry, epoch: nat)

  datatype History = History(
    votes: map<(nat, NodeId), Ballot>,
    candidacies: map<(nat, NodeId), Position>,
    counted: map<NodeId, set<NodeId>>,
    elections: set<Election>,
    termLog: map<nat, Log>,
    epoch: map<NodeId, nat>,
    applied: map<NodeId, seq<Application>>)

  datatype System = System(nodes: map<NodeId, Raft>, net: multiset<Packet>, hist: History)

  datatype Step =
    | Timeout(n: NodeId)
    | Deliver(p: Packet)
    | Drop(p: Packet)
    | AppendCommand(n: NodeId, cmd: Command)
    | SendTo(n: NodeId, peer: NodeId, batch: nat)
    | AdvanceCommit(n: NodeId, commit: nat)
    | LoseMajority(n: NodeId)
    | Apply(n: NodeId)

  function End(log: Log): Position
    requires |log| > 0
  {
    Position(LastTerm(log), LastIdx(log))
  }

  predicate NoNewer(a: Position, b: Position) {
    a.term < b.term || (a.term == b.term && a.idx <= b.idx)
  }

  /** The peers of a node are the other nodes of the cluster. */
  predicate PeersOf(r: Raft, ids: set<NodeId>) {
    r.id in ids && r.peers == ids - {r.id}
  }

  predicate StartsFresh(s: System, n: NodeId) {
    n in s.nodes
    && s.nodes[n] == InitialRaft(n, s.nodes[n].peers, s.nodes[n].selfVer)
    && PeersOf(s.nodes[n], s.nodes.Keys)
  }

  predicate Init(s: System) {
    && (forall n {:trigger StartsFresh(s, n)} :: n in s.nodes ==> StartsFresh(s, n))
    && s.net == multiset{}
    && s.hist == History(map[], map[], map n | n in s.nodes :: {}, {}, map[0 := [FIRST_ENTRY]],
                         map n | n in s.nodes :: 0, map n | n in s.nodes :: [])
  }

  predicate Running(s: System) {
    && (forall n :: n in s.nodes ==> |s.nodes[n].log| > 0 && s.nodes[n].id == n)
    && s.hist.counted.Keys == s.nodes.Keys
    && s.hist.epoch.Keys == s.nodes.Keys
    && s.hist.applied.Keys == s.nodes.Keys
  }

  predicate Enabled(s: System, step: Step)
    requires Running(s)
  {
    match step
    case Timeout(n) => n in s.nodes && s.nodes[n].role != Leader
    case Deliver(p) => p in s.net && p.dst in s.nodes
    case Drop(p) => p in s.net
    case AppendCommand(n, cmd) => n in s.nodes && s.nodes[n].role == Leader
    case SendTo(n, peer, batch) =>
      n in s.nodes && s.nodes[n].role == Leader && peer in s.nodes[n].peers && peer in s.nodes[n].nextIndex && batch > 0
    case AdvanceCommit(n, commit) => n in s.nodes && s.nodes[n].role == Leader && CommitsTo(s.nodes[n], commit)
    case LoseMajority(n) => n in s.nodes && s.nodes[n].role == Leader
    case Apply(n) => n in s.nodes
  }

  /** Record that node n, with log `before`, was elected by `quorum`. */
  function RecordElection(h: History, n: NodeId, before: Raft, after: Raft, quorum: set<NodeId>): History
    requires |before.log| > 0
  {
    h.(elections := h.elections + {Election(after.term, n, quorum, End(before.log))},
       termLog := h.termLog[after.term := after.log],
       epoch := h.epoch[n := after.term])
  }

  function RecordTimeout(h: History, r: Raft): History
    requires |r.log| > 0
  {
    var c := StartCandidacy(r);
    var h1 := h.(votes := h.votes[(c.term, r.id) := Ballot(r.id, End(r.log))],
                 candidacies := h.candidacies[(c.term, r.id) := End(r.log)],
                 counted := h.counted[r.id := {r.id}]);
    if Majority(c, c.votesCount) then RecordElection(h1, r.id, c, BecomeLeader(c), {r.id}) else h1
  }

  function RecordVoteCount(h: History, r: Raft, voter: NodeId, msg: Message): History
    requires |r.log| > 0 && msg.ResponseVote? && r.id in h.counted
  {
    if CountsVote(r, msg) then
      var quorum := h.counted[r.id] + {voter};
      var h1 := h.(counted := h.counted[r.id := quorum]);
      if OnResponseVote(r, msg).role == Leader then RecordElection(h1, r.id, r, OnResponseVote(r, msg), quorum) else h1
    else h
  }

  function RecordReceive(h: History, r: Raft, src: NodeId, msg: Message): History
    requires |r.log| > 0 && r.id in h.counted
  {
    match msg
    case RequestVote(_, _, _) =>
      if GrantsVote(AdoptTerm(r, msg.term), msg)
      then h.(votes := h.votes[(msg.term, r.id) := Ballot(src, End(r.log))])
      else h
    case ResponseVote(_) => RecordVoteCount(h, r, src, msg)
    case AppendEntries(_, _, _, _) => if Accepts(r, msg) then h.(epoch := h.epoch[r.id := msg.term]) else h
    case EmptySnapshot(_, _) => h
    case NextNodeIdx(_, _, _) => h
  }

  function RecordApply(h: History, r: Raft): History
    requires |r.log| > 0 && r.id in h.epoch && r.id in h.applied
  {
    var es := Executed(Unapplied(r), r.selfVer);
    var now := seq(|es|, i requires 0 <= i < |es| => Application(es[i], h.epoch[r.id]));
    h.(applied := h.applied[r.id := h.applied[r.id] + now])
  }

  function AfterTimeout(s: System, n: NodeId): System
    requires Running(s) && n in s.nodes
  {
    var (r, out) := StartElection(s.nodes[n]);
    System(s.nodes[n := r], s.net + out, RecordTimeout(s.hist, s.nodes[n]))
  }

  function AfterDelivery(s: System, p: Packet): System
    requires Running(s) && p.dst in s.nodes
  {
    var (r, out) := Receive(s.nodes[p.dst], p.src, p.msg);
    System(s.nodes[p.dst := r], s.net - multiset{p} + out, RecordReceive(s.hist, s.nodes[p.dst], p.src, p.msg))
  }

  function AfterAppend(s: System, n: NodeId, cmd: Command): System
    requires Running(s) && n in s.nodes
  {
    var r := LeaderAppend(s.nodes[n], cmd);
    System(s.nodes[n := r], s.net, s.hist.(termLog := s.hist.termLog[r.term := r.log]))
  }

  function AfterSend(s: System, n: NodeId, peer: NodeId, batch: nat): System
    requires Running(s) && n in s.nodes && peer in s.nodes[n].nextIndex
  {
    var (r, p) := SendAppend(s.nodes[n], peer, batch);
    System(s.nodes[n := r], s.net + multiset{p}, s.hist)
  }

  function AfterApply(s: System, n: NodeId): System
    requires Running(s) && n in s.nodes
  {
    System(s.nodes[n := ApplyCommitted(s.nodes[n])], s.net, RecordApply(s.hist, s.nodes[n]))
  }

  function Next(s: System, step: Step): System
    requires Running(s) && Enabled(s, step)
  {
    match step
    case Timeout(n) => AfterTimeout(s, n)
    case Deliver(p) => AfterDelivery(s, p)
    case Drop(p) => s.(net := s.net - multiset{p})
    case AppendCommand(n, cmd) => AfterAppend(s, n, cmd)
    case SendTo(n, peer, batch) => AfterSend(s, n, peer, batch)
    case AdvanceCommit(n, commit) => s.(nodes := s.nodes[n := s.nodes[n].(commitIndex := commit)])
    case LoseMajority(n) => s.(nodes := s.nodes[n := StepDown(s.nodes[n])])
    case Apply(n) => AfterApply(s, n)
  }

  ghost predicate Steps(s: System, t: System) {
    Running(s) && exists step :: Enabled(s, step) && t == Next(s, step)
  }

  ghost predicate StepAt(states: seq<System>, i: nat)
    requires 0 < i < |states|
  {
    Steps(states[i - 1], states[i])
  }

  /** A finite run of the cluster from a fresh start. */
  ghost predicate Run(states: seq<System>) {
    && |states| > 0
    && Init(states[0])
    && forall i :: 0 < i < |states| ==> StepAt(states, i)
  }

  lemma RunSteps(states: seq<System>, i: nat)
    requires Run(states) && 0 < i < |states|
    ensures Steps(states[i - 1], states[i])
  {
    assert StepAt(states, i);
  }
}
