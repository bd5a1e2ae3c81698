/** A session of two nodes that loses a callback: node 1 forwards a command to the
    leader, and applies its entry before the leader's answer arrives. */
module ClusterWitness {
  import opened Options
  import opened RaftTypes
  import opened RaftProtocol
  import opened RaftSystem
  import opened RaftClient
  import opened RaftCallbacks
  import opened RaftPair
  import opened ClusterSystem
  import opened ClusterResults
  import opened ClusterLoss

  const CB: Callback := 7
  const CMD := Regular("pay")
  const E3 := Entry(CMD, 3, 1)
  const LOG3 := [FIRST_ENTRY, E2, E3]

  const SEND2 := Packet(0, 1, AppendEntries(1, 1, Some(Prev(1, 0)), [E2]))
  const SEND3 := Packet(0, 1, AppendEntries(1, 1, Some(Prev(2, 1)), [E3]))
  const BEAT := Packet(0, 1, AppendEntries(1, 1, Some(Prev(3, 1)), []))
  const ACK := Packet(1, 0, NextNodeIdx(4, false, true))
  const BEAT3 := Packet(0, 1, AppendEntries(1, 3, Some(Prev(3, 1)), []))

  const QUEUED := FRESH_CLIENT.(queue := [Request(CMD, Local(CB))])
  const FORWARDED := FRESH_CLIENT.(counter := 1, waitingReply := map[1 := CB])
  const TAKEN := FRESH_CLIENT.(queue := [Request(CMD, Remote(1, 1))])
  const REQUEST := ClientPacket(1, 0, ApplyCommand(CMD, Some(1)))
  const ANSWER := ClientPacket(0, 1, ApplyResponse(1, Placed(3, 1)))

  // --------------------------------------------------------- what the handlers do

  lemma SendsNoOp(a: Raft)
    requires Leads(a, LOG2, 1, 1, 2, 0)
    ensures Leads(SendAppend(a, 1, 1).0, LOG2, 1, 1, 3, 0) && SendAppend(a, 1, 1).1 == SEND2
  {
    assert EntriesFrom(LOG2, 2) == [E2] && EntriesFrom(LOG2, 1) == LOG2;
    assert Take([E2], 1) == [E2] && PrevOf(LOG2, 2) == Some(Prev(1, 0));
  }

  lemma TakesNoOp(b: Raft)
    requires Follows(b, None, [FIRST_ENTRY], 1, 1)
    ensures Follows(Receive(b, 0, SEND2.msg).0, Some(0), LOG2, 1, 1)
  {
    assert [FIRST_ENTRY][..1] + [E2] == LOG2;
  }

  lemma SendsCommand(a: Raft)
    requires Leads(a, LOG3, 1, 1, 3, 0)
    ensures Leads(SendAppend(a, 1, 1).0, LOG3, 1, 1, 4, 0) && SendAppend(a, 1, 1).1 == SEND3
  {
    assert EntriesFrom(LOG3, 3) == [E3] && EntriesFrom(LOG3, 2) == [E2, E3];
    assert Take([E3], 1) == [E3] && PrevOf(LOG3, 3) == Some(Prev(2, 1));
  }

  lemma TakesCommand(b: Raft)
    requires Follows(b, Some(0), LOG2, 1, 1)
    ensures Follows(Receive(b, 0, SEND3.msg).0, Some(0), LOG3, 1, 1)
  {
    assert EntriesFrom(LOG2, 2) == [E2];
    assert LOG2[..2] + [E3] == LOG3;
  }

  lemma Beats(a: Raft)
    requires Leads(a, LOG3, 1, 1, 4, 0)
    ensures SendAppend(a, 1, 1) == (a, BEAT) && Leads(Receive(a, 1, ACK.msg).0, LOG3, 1, 1, 4, 3)
  {
    assert EntriesFrom(LOG3, 4) == [] && EntriesFrom(LOG3, 3) == [E3];
  }

  lemma BeatsAgain(a: Raft)
    requires Leads(a, LOG3, 3, 1, 4, 3)
    ensures SendAppend(a, 1, 1) == (a, BEAT3)
  {
    assert EntriesFrom(LOG3, 4) == [] && EntriesFrom(LOG3, 3) == [E3];
  }

  lemma Acknowledges(b: Raft)
    requires Follows(b, Some(0), LOG3, 1, 1)
    ensures Follows(Receive(b, 0, BEAT.msg).0, Some(0), LOG3, 1, 1) && Receive(b, 0, BEAT.msg).1 == multiset{ACK}
    ensures Follows(Receive(b, 0, BEAT3.msg).0, Some(0), LOG3, 3, 1)
  {
    assert EntriesFrom(LOG3, 3) == [E3];
    assert LOG3[..3] + [] == LOG3;
  }

  lemma Commits(a: Raft)
    requires Leads(a, LOG3, 1, 1, 4, 3)
    ensures CommitsTo(a, 3)
  {
    assert Ackers(a, 2) == {1} && Ackers(a, 3) == {1};
  }

  lemma Applies(b: Raft)
    requires Follows(b, Some(0), LOG3, 3, 1)
    ensures Follows(ApplyCommitted(b), Some(0), LOG3, 3, 3)
    ensures ApplyEntries(FORWARDED, Unapplied(b), 0).waitingReply == FORWARDED.waitingReply
    ensures ApplyEntries(FORWARDED, Unapplied(b), 0).fired == []
  {
    assert Unapplied(b) == [E2, E3];
    assert [E2, E3][1..] == [E3] && [E3][1..] == [];
    assert Executed([E3], 0) == [E3];
    assert Executed([E2, E3], 0) == [E2] + [E3];
    assert [E2, E3][..1] == [E2] && [E2][..0] == [];
    assert ApplyEntries(FORWARDED, [], 0) == FORWARDED;
  }

  lemma Forwards(b: Raft)
    requires Follows(b, Some(0), LOG2, 1, 1)
    ensures Enqueue(FRESH_CLIENT, b, Request(CMD, Local(CB)), 1) == (QUEUED, multiset{})
    ensures Process(QUEUED, b) == (FORWARDED, b, multiset{REQUEST})
  {
    assert [] + [Request(CMD, Local(CB))] == [Request(CMD, Local(CB))] && [Request(CMD, Local(CB))][1..] == [];
  }

  lemma Logs(a: Raft)
    requires Leads(a, LOG2, 1, 1, 3, 0)
    ensures OnApplyCommand(FRESH_CLIENT, a, 1, REQUEST.msg, 1) == (TAKEN, multiset{})
    ensures var (c, r, out) := Process(TAKEN, a);
            c == FRESH_CLIENT && Leads(r, LOG3, 1, 1, 3, 0) && out == multiset{ANSWER}
  {
    assert [] + [Request(CMD, Remote(1, 1))] == [Request(CMD, Remote(1, 1))] && [Request(CMD, Remote(1, 1))][1..] == [];
    assert LOG2 + [E3] == LOG3;
  }

  lemma NobodyWaits()
    ensures OnLeaderChanged(FRESH_CLIENT) == FRESH_CLIENT
  {
    assert WaitingIds(map[], 1, 0) == [];
  }

  // ------------------------------------------------------------- moves of a session

  /** What the nodes and their clients hold, packets that are under way, and the
      commands that were submitted. */
  datatype Scene = Scene(nodes: map<NodeId, Raft>, net: multiset<Packet>,
                         clients: map<NodeId, Client>, traffic: multiset<ClientPacket>, commandOf: map<Callback, Command>)

  ghost predicate Shows(g: Cluster, s: Scene) {
    && g.raft.nodes == s.nodes && s.net <= g.raft.net
    && g.clients == s.clients && s.traffic <= g.traffic && g.commandOf == s.commandOf
  }

  /** The session has come to this scene. */
  ghost predicate At(states: seq<Cluster>, s: Scene) {
    Session(states) && Shows(states[|states| - 1], s)
  }

  predicate Has(s: Scene, n: NodeId) {
    n in s.nodes && n in s.clients && |s.nodes[n].log| > 0
  }

  lemma LastReady(states: seq<Cluster>)
    requires Session(states)
    ensures Ready(states[|states| - 1])
  {
    SessionKeeps(states, |states| - 1);
  }

  lemma Extend(states: seq<Cluster>, move: Move) returns (more: seq<Cluster>)
    requires Session(states) && Ready(states[|states| - 1]) && Allowed(states[|states| - 1], move)
    ensures Session(more) && more == states + [After(states[|states| - 1], move)]
  {
    more := states + [After(states[|states| - 1], move)];
    forall i | 0 < i < |more| ensures MoveAt(more, i) {
      if i < |states| {
        assert MoveAt(states, i);
      } else {
        assert Moves(states[|states| - 1], more[i]);
      }
    }
  }

  lemma Moved(states: seq<Cluster>, move: Move, t: Scene) returns (more: seq<Cluster>)
    requires Session(states) && Ready(states[|states| - 1]) && Allowed(states[|states| - 1], move)
    requires Shows(After(states[|states| - 1], move), t)
    ensures At(more, t)
  {
    more := Extend(states, move);
  }

  function TimedOut(s: Scene, n: NodeId): Scene
    requires Has(s, n)
  {
    var (r, out) := StartElection(s.nodes[n]);
    s.(nodes := s.nodes[n := r], net := s.net + out, clients := s.clients[n := OnLeaderChanged(s.clients[n])])
  }

  lemma Time(states: seq<Cluster>, s: Scene, n: NodeId) returns (more: seq<Cluster>)
    requires At(states, s) && Has(s, n) && s.nodes[n].role != Leader
    ensures At(more, TimedOut(s, n))
  {
    LastReady(states);
    more := Moved(states, RaftMove(Timeout(n)), TimedOut(s, n));
  }

  function Delivered(s: Scene, p: Packet): Scene
    requires Has(s, p.dst)
  {
    var (r, out) := Receive(s.nodes[p.dst], p.src, p.msg);
    s.(nodes := s.nodes[p.dst := r], net := s.net - multiset{p} + out,
       clients := s.clients[p.dst := SideEffect(s.clients[p.dst], s.nodes[p.dst], Deliver(p))])
  }

  lemma Carry(states: seq<Cluster>, s: Scene, p: Packet) returns (more: seq<Cluster>)
    requires At(states, s) && Has(s, p.dst) && p in s.net
    ensures At(more, Delivered(s, p))
  {
    LastReady(states);
    more := Moved(states, RaftMove(Deliver(p)), Delivered(s, p));
  }

  function Sent(s: Scene, n: NodeId, peer: NodeId): Scene
    requires Has(s, n) && peer in s.nodes[n].nextIndex
  {
    var (r, p) := SendAppend(s.nodes[n], peer, 1);
    s.(nodes := s.nodes[n := r], net := s.net + multiset{p})
  }

  lemma Send(states: seq<Cluster>, s: Scene, n: NodeId, peer: NodeId) returns (more: seq<Cluster>)
    requires At(states, s) && Has(s, n) && s.nodes[n].role == Leader && peer in s.nodes[n].peers && peer in s.nodes[n].nextIndex
    ensures At(more, Sent(s, n, peer))
  {
    LastReady(states);
    more := Moved(states, RaftMove(Step.SendTo(n, peer, 1)), Sent(s, n, peer));
  }

  lemma Commit(states: seq<Cluster>, s: Scene, n: NodeId, index: nat) returns (more: seq<Cluster>)
    requires At(states, s) && Has(s, n) && s.nodes[n].role == Leader && CommitsTo(s.nodes[n], index)
    ensures At(more, s.(nodes := s.nodes[n := s.nodes[n].(commitIndex := index)]))
  {
    LastReady(states);
    more := Moved(states, RaftMove(AdvanceCommit(n, index)), s.(nodes := s.nodes[n := s.nodes[n].(commitIndex := index)]));
  }

  function AppliedBy(s: Scene, n: NodeId): Scene
    requires Has(s, n)
  {
    var r := s.nodes[n];
    s.(nodes := s.nodes[n := ApplyCommitted(r)],
       clients := s.clients[n := ApplyEntries(s.clients[n], Unapplied(r), r.selfVer)])
  }

  lemma ApplyAll(states: seq<Cluster>, s: Scene, n: NodeId) returns (more: seq<Cluster>)
    requires At(states, s) && Has(s, n)
    ensures At(more, AppliedBy(s, n))
  {
    LastReady(states);
    more := Moved(states, RaftMove(Apply(n)), AppliedBy(s, n));
  }

  function SubmittedBy(s: Scene, n: NodeId): Scene
    requires Has(s, n)
  {
    var (c, out) := Enqueue(s.clients[n], s.nodes[n], Request(CMD, Local(CB)), 1);
    s.(clients := s.clients[n := c], traffic := s.traffic + out, commandOf := s.commandOf[CB := CMD])
  }

  lemma SubmitOne(states: seq<Cluster>, s: Scene, n: NodeId) returns (more: seq<Cluster>)
    requires At(states, s) && Has(s, n) && CB !in s.commandOf
    ensures At(more, SubmittedBy(s, n))
  {
    LastReady(states);
    more := Moved(states, Submit(n, CMD, Some(CB), 1), SubmittedBy(s, n));
  }

  function ProcessedBy(s: Scene, n: NodeId): Scene
    requires Has(s, n) && s.clients[n].queue != []
  {
    var (c, r, out) := Process(s.clients[n], s.nodes[n]);
    s.(nodes := s.nodes[n := r], clients := s.clients[n := c], traffic := s.traffic + out)
  }

  lemma ProcessShows(g: Cluster, s: Scene, n: NodeId)
    requires Ready(g) && Shows(g, s) && Has(s, n) && s.clients[n].queue != []
    ensures Shows(AfterProcess(g, n), ProcessedBy(s, n))
  {
    ProcessIsProcess(g, n);
  }

  lemma ProcessOne(states: seq<Cluster>, s: Scene, n: NodeId) returns (more: seq<Cluster>)
    requires At(states, s) && Has(s, n) && s.clients[n].queue != []
    ensures At(more, ProcessedBy(s, n))
  {
    LastReady(states);
    ProcessShows(states[|states| - 1], s, n);
    more := Moved(states, ProcessNext(n), ProcessedBy(s, n));
  }

  function Handed(s: Scene, p: ClientPacket): Scene
    requires Has(s, p.dst) && p.msg.ApplyCommand?
  {
    var (c, out) := OnApplyCommand(s.clients[p.dst], s.nodes[p.dst], p.src, p.msg, 1);
    s.(clients := s.clients[p.dst := c], traffic := s.traffic - multiset{p} + out)
  }

  lemma Hand(states: seq<Cluster>, s: Scene, p: ClientPacket) returns (more: seq<Cluster>)
    requires At(states, s) && Has(s, p.dst) && p in s.traffic && p.msg.ApplyCommand?
    ensures At(more, Handed(s, p))
  {
    LastReady(states);
    more := Moved(states, DeliverClient(p, 1), Handed(s, p));
  }

  // --------------------------------------------------------------------- the session

  ghost predicate Cast(s: Scene, c: Client, d: Client) {
    Has(s, 0) && Has(s, 1) && s.clients[0] == c && s.clients[1] == d
  }

  lemma Begins() returns (states: seq<Cluster>, s: Scene)
    ensures At(states, s) && Cast(s, FRESH_CLIENT, FRESH_CLIENT) && s.commandOf == map[]
    ensures s.nodes[0] == InitialRaft(0, {1}, 0) && s.nodes[1] == InitialRaft(1, {0}, 0)
  {
    var nodes := map[0 := InitialRaft(0, {1}, 0), 1 := InitialRaft(1, {0}, 0)];
    var hist := History(map[], map[], map n | n in nodes :: {}, {}, map[0 := [FIRST_ENTRY]],
                        map n | n in nodes :: 0, map n | n in nodes :: []);
    var g := Cluster(System(nodes, multiset{}, hist), map n | n in nodes :: FRESH_CLIENT, multiset{}, map[], map[]);
    assert StartsFresh(g.raft, 0) && StartsFresh(g.raft, 1);
    states := [g];
    s := Scene(nodes, multiset{}, g.clients, multiset{}, map[]);
  }

  /** Node 0 wins the first term with the vote of node 1. */
  lemma Elects() returns (states: seq<Cluster>, s: Scene)
    ensures At(states, s) && Cast(s, FRESH_CLIENT, FRESH_CLIENT) && s.commandOf == map[]
    ensures Leads(s.nodes[0], LOG2, 1, 1, 2, 0) && Follows(s.nodes[1], None, [FIRST_ENTRY], 1, 1)
  {
    states, s := Begins();
    Asks();
    Votes();
    Wins();
    NobodyWaits();
    states := Time(states, s, 0);
    s := TimedOut(s, 0);
    states := Carry(states, s, ASK);
    s := Delivered(s, ASK);
    states := Carry(states, s, VOTE);
    s := Delivered(s, VOTE);
  }

  /** The no-op of the term reaches node 1, which then knows its leader. */
  lemma Replicates() returns (states: seq<Cluster>, s: Scene)
    ensures At(states, s) && Cast(s, FRESH_CLIENT, FRESH_CLIENT) && s.commandOf == map[]
    ensures Leads(s.nodes[0], LOG2, 1, 1, 3, 0) && Follows(s.nodes[1], Some(0), LOG2, 1, 1)
  {
    states, s := Elects();
    SendsNoOp(s.nodes[0]);
    TakesNoOp(s.nodes[1]);
    NobodyWaits();
    states := Send(states, s, 0, 1);
    s := Sent(s, 0, 1);
    states := Carry(states, s, SEND2);
    s := Delivered(s, SEND2);
  }

  /** Node 1 forwards a command, and node 0 logs it and answers. */
  lemma ForwardsCommand() returns (states: seq<Cluster>, s: Scene)
    ensures At(states, s) && Cast(s, FRESH_CLIENT, FORWARDED) && CB in s.commandOf && ANSWER in s.traffic
    ensures Leads(s.nodes[0], LOG3, 1, 1, 3, 0) && Follows(s.nodes[1], Some(0), LOG2, 1, 1)
  {
    states, s := Replicates();
    Forwards(s.nodes[1]);
    Logs(s.nodes[0]);
    states := SubmitOne(states, s, 1);
    s := SubmittedBy(s, 1);
    states := ProcessOne(states, s, 1);
    s := ProcessedBy(s, 1);
    states := Hand(states, s, REQUEST);
    s := Handed(s, REQUEST);
    states := ProcessOne(states, s, 0);
    s := ProcessedBy(s, 0);
  }

  /** The entry reaches node 1. */
  lemma ReplicatesCommand() returns (states: seq<Cluster>, s: Scene)
    ensures At(states, s) && Cast(s, FRESH_CLIENT, FORWARDED) && CB in s.commandOf && ANSWER in s.traffic
    ensures Leads(s.nodes[0], LOG3, 1, 1, 4, 0) && Follows(s.nodes[1], Some(0), LOG3, 1, 1)
  {
    states, s := ForwardsCommand();
    SendsCommand(s.nodes[0]);
    TakesCommand(s.nodes[1]);
    states := Send(states, s, 0, 1);
    s := Sent(s, 0, 1);
    states := Carry(states, s, SEND3);
    s := Delivered(s, SEND3);
  }

  /** A heartbeat tells node 0 that node 1 holds it. */
  lemma Confirms() returns (states: seq<Cluster>, s: Scene)
    ensures At(states, s) && Cast(s, FRESH_CLIENT, FORWARDED) && CB in s.commandOf && ANSWER in s.traffic
    ensures Leads(s.nodes[0], LOG3, 1, 1, 4, 3) && Follows(s.nodes[1], Some(0), LOG3, 1, 1)
  {
    states, s := ReplicatesCommand();
    Beats(s.nodes[0]);
    Acknowledges(s.nodes[1]);
    states := Send(states, s, 0, 1);
    s := Sent(s, 0, 1);
    states := Carry(states, s, BEAT);
    s := Delivered(s, BEAT);
    states := Carry(states, s, ACK);
    s := Delivered(s, ACK);
  }

  /** The entry is committed, and node 1 applies it. */
  lemma AppliesCommand() returns (states: seq<Cluster>, s: Scene)
    ensures At(states, s) && Has(s, 1) && CB in s.commandOf && ANSWER in s.traffic
    ensures s.nodes[1].lastApplied == 3
    ensures s.clients[1].waitingReply == FORWARDED.waitingReply && s.clients[1].fired == []
  {
    states, s := Confirms();
    Commits(s.nodes[0]);
    states := Commit(states, s, 0, 3);
    s := s.(nodes := s.nodes[0 := s.nodes[0].(commitIndex := 3)]);
    BeatsAgain(s.nodes[0]);
    Acknowledges(s.nodes[1]);
    states := Send(states, s, 0, 1);
    s := Sent(s, 0, 1);
    states := Carry(states, s, BEAT3);
    s := Delivered(s, BEAT3);
    Applies(s.nodes[1]);
    states := ApplyAll(states, s, 1);
    s := AppliedBy(s, 1);
  }

  lemma AnswerComesLate(g: Cluster, s: Scene)
    requires Ready(g) && Shows(g, s) && Has(s, 1) && ANSWER in s.traffic && s.nodes[1].lastApplied == 3
    requires s.clients[1].waitingReply == FORWARDED.waitingReply
    ensures Allowed(g, DeliverClient(ANSWER, 1)) && Loses(g, DeliverClient(ANSWER, 1), 1, CB) && Holds(g.clients[1], CB)
    ensures 1 in After(g, DeliverClient(ANSWER, 1)).clients
    ensures After(g, DeliverClient(ANSWER, 1)).clients[1].fired == s.clients[1].fired
  {
    assert Held(g.clients[1], Reply(1)) == Some(CB);
  }

  /** The answer to an applied command loses the callback: its node knew it, does
      not know it any more, and never called it. */
  lemma AppliedAnswerLosesCallback() returns (states: seq<Cluster>, k: nat)
    ensures Session(states) && k + 1 < |states|
    ensures KnownAt(states, k, 1, CB) && LostAt(states, k, 1, CB) && !KnownAt(states, k + 1, 1, CB)
    ensures 1 in states[k + 1].clients && states[k + 1].clients[1].fired == []
  {
    var s: Scene;
    states, s := AppliesCommand();
    k := |states| - 1;
    var g := states[k];
    LastReady(states);
    AnswerComesLate(g, s);
    states := Extend(states, DeliverClient(ANSWER, 1));
    StepLosesIff(states, k, 1, CB);
  }
}
