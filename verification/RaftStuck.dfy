/** A run of five nodes after which a leader never brings one follower to its log. Node 1
    follows node 0 in term 1 and refuses a heartbeat; the answer is delayed. Node 2 leads
    term 2 without having seen anything and cuts the log of node 0, which then leads
    term 3 with a log shorter than that of node 1. The answer from term 1 arrives. */
module RaftStuck {
  import opened Options
  import opened RaftTypes
  import opened RaftProtocol
  import opened RaftSystem
  import opened RaftScenes
  import opened RaftRepair

  const ALL: set<NodeId> := {0, 1, 2, 3, 4}
  const CMD := Regular("x")

  const START := [FIRST_ENTRY]
  const OLD_LOG := [FIRST_ENTRY, Entry(NoOp, 2, 1), Entry(CMD, 3, 1), Entry(CMD, 4, 1)]
  const OLD_LOG5 := OLD_LOG + [Entry(CMD, 5, 1)]
  const LOG2 := [FIRST_ENTRY, Entry(NoOp, 2, 2)]
  const LOG3 := [FIRST_ENTRY, Entry(NoOp, 2, 2), Entry(NoOp, 3, 3)]

  predicate Is(r: Raft, id: NodeId, role: Role, term: nat, log: Log) {
    r.id == id && |r.peers| == 4 && r.role == role && r.term == term && r.log == log && r.commitIndex == 1
  }

  /** It leads, and this is the next index for a peer. */
  predicate Leads(r: Raft, id: NodeId, term: nat, log: Log, peer: NodeId, next: nat) {
    Is(r, id, Leader, term, log) && peer in r.peers && peer in r.nextIndex && r.nextIndex[peer] == next
  }

  /** A node that has seen no entries and is behind the term. */
  predicate Idle(r: Raft, id: NodeId, term: nat) {
    r.id == id && |r.peers| == 4 && r.log == START && r.term < term && r.commitIndex == 1
  }

  // ------------------------------------------------------------------ one election

  function Ask(c: NodeId, v: NodeId, term: nat, log: Log): Packet
    requires |log| > 0
  {
    Packet(c, v, RequestVote(term, LastIdx(log), LastTerm(log)))
  }

  lemma Stands(r: Raft, v: NodeId)
    requires |r.peers| == 4 && |r.log| > 0 && v in r.peers
    ensures StartElection(r).0 == StartCandidacy(r)
    ensures Ask(r.id, v, r.term + 1, r.log) in StartElection(r).1
  {
    assert Ask(r.id, v, r.term + 1, r.log) in set p | p in r.peers :: Packet(r.id, p, Ask(r.id, v, r.term + 1, r.log).msg);
  }

  lemma Grants(r: Raft, v: NodeId, c: NodeId, term: nat, log: Log)
    requires Idle(r, v, term) && WellFormedLog(log)
    ensures var (g, out) := Receive(r, c, Ask(c, v, term, log).msg);
            Is(g, v, Follower, term, START) && out == multiset{Packet(v, c, ResponseVote(term))}
  {
    assert LastIdx(log) >= 1;
  }

  lemma CountsFirst(r: Raft, v: NodeId)
    requires r.role == Candidate && |r.peers| == 4 && |r.log| > 0 && r.votesCount == 1
    ensures Receive(r, v, ResponseVote(r.term)) == (r.(votesCount := 2), multiset{})
  {
  }

  lemma CountsSecond(r: Raft, v: NodeId)
    requires r.role == Candidate && |r.peers| == 4 && |r.log| > 0 && r.votesCount == 2 && r.commitIndex == 1
    ensures var (l, out) := Receive(r, v, ResponseVote(r.term));
            && out == multiset{} && l.peers == r.peers
            && Is(l, r.id, Leader, r.term, r.log + [Entry(NoOp, LastIdx(r.log) + 1, r.term)])
            && forall p :: p in r.peers ==> p in l.nextIndex && l.nextIndex[p] == LastIdx(r.log) + 1
  {
  }

  /** Before an election of candidate c: two idle voters among its peers. */
  predicate Poll(t: Scene, c: NodeId, v: NodeId, w: NodeId) {
    && Has(t, c) && Has(t, v) && Has(t, w) && v != w && v != c && w != c
    && t.nodes[c].id == c && |t.nodes[c].peers| == 4 && v in t.nodes[c].peers && w in t.nodes[c].peers
    && t.nodes[c].role != Leader && WellFormedLog(t.nodes[c].log) && t.nodes[c].commitIndex == 1
    && Idle(t.nodes[v], v, t.nodes[c].term + 1) && Idle(t.nodes[w], w, t.nodes[c].term + 1)
  }

  /** It won: nothing changed but these three nodes, and nothing left the network that
      was there before. */
  predicate Won(t: Scene, u: Scene, c: NodeId, v: NodeId, w: NodeId) {
    && Has(t, c) && Has(u, c) && Has(u, v) && Has(u, w) && t.net <= u.net
    && (forall n :: n in t.nodes ==> n in u.nodes && (n != c && n != v && n != w ==> u.nodes[n] == t.nodes[n]))
    && var term, log := t.nodes[c].term + 1, t.nodes[c].log;
    && Is(u.nodes[c], c, Leader, term, log + [Entry(NoOp, LastIdx(log) + 1, term)])
    && u.nodes[c].peers == t.nodes[c].peers
    && (forall p :: p in t.nodes[c].peers ==> p in u.nodes[c].nextIndex && u.nodes[c].nextIndex[p] == LastIdx(log) + 1)
    && Is(u.nodes[v], v, Follower, term, START) && Is(u.nodes[w], w, Follower, term, START)
  }

  /** One vote is asked for, given, and counted. */
  function Voted(t: Scene, c: NodeId, v: NodeId): Scene
    requires Has(t, c) && Has(t, v) && v != c
  {
    var ask := Ask(c, v, t.nodes[c].term, t.nodes[c].log);
    var g := Receive(t.nodes[v], c, ask.msg).0;
    var l := Receive(t.nodes[c], v, ResponseVote(t.nodes[c].term)).0;
    Scene(t.nodes[v := g][c := l], t.net - multiset{ask})
  }

  predicate Votes(t: Scene, c: NodeId, v: NodeId, count: nat) {
    && Has(t, c) && Has(t, v) && v != c && WellFormedLog(t.nodes[c].log) && t.nodes[c].id == c
    && t.nodes[c].role == Candidate && |t.nodes[c].peers| == 4 && t.nodes[c].votesCount == count && t.nodes[c].commitIndex == 1
    && Idle(t.nodes[v], v, t.nodes[c].term) && Ask(c, v, t.nodes[c].term, t.nodes[c].log) in t.net
  }

  lemma Vote(states: seq<System>, t: Scene, c: NodeId, v: NodeId, count: nat) returns (more: seq<System>)
    requires At(states, t) && (count == 1 || count == 2) && Votes(t, c, v, count)
    ensures At(more, Voted(t, c, v))
  {
    var ask, answer := Ask(c, v, t.nodes[c].term, t.nodes[c].log), Packet(v, c, ResponseVote(t.nodes[c].term));
    Grants(t.nodes[v], v, c, t.nodes[c].term, t.nodes[c].log);
    Answered(t, c, v, count);
    more := Carry(states, t, ask);
    more := Carry(more, Delivered(t, ask), answer);
  }

  lemma Answered(t: Scene, c: NodeId, v: NodeId, count: nat)
    requires (count == 1 || count == 2) && Votes(t, c, v, count)
    ensures var ask, answer := Ask(c, v, t.nodes[c].term, t.nodes[c].log), Packet(v, c, ResponseVote(t.nodes[c].term));
            && Has(Delivered(t, ask), c) && answer in Delivered(t, ask).net
            && Delivered(Delivered(t, ask), answer) == Voted(t, c, v)
  {
    Grants(t.nodes[v], v, c, t.nodes[c].term, t.nodes[c].log);
    if count == 1 {
      CountsFirst(t.nodes[c], v);
    } else {
      CountsSecond(t.nodes[c], v);
    }
    var ask, answer := Ask(c, v, t.nodes[c].term, t.nodes[c].log), Packet(v, c, ResponseVote(t.nodes[c].term));
    assert Delivered(Delivered(t, ask), answer).net == t.net - multiset{ask} + multiset{answer} - multiset{answer};
  }

  lemma FirstVote(t: Scene, c: NodeId, v: NodeId, w: NodeId)
    requires Votes(t, c, v, 1) && Votes(t, c, w, 1) && v != w
    ensures Votes(Voted(t, c, v), c, w, 2) && Is(Voted(t, c, v).nodes[v], v, Follower, t.nodes[c].term, START)
    ensures Voted(t, c, v).nodes[c] == t.nodes[c].(votesCount := 2)
  {
    Grants(t.nodes[v], v, c, t.nodes[c].term, t.nodes[c].log);
    CountsFirst(t.nodes[c], v);
  }

  lemma SecondVote(t: Scene, c: NodeId, w: NodeId)
    requires Votes(t, c, w, 2)
    ensures var u, log := Voted(t, c, w), t.nodes[c].log;
            && Is(u.nodes[c], c, Leader, t.nodes[c].term, log + [Entry(NoOp, LastIdx(log) + 1, t.nodes[c].term)])
            && u.nodes[c].peers == t.nodes[c].peers
            && (forall p :: p in t.nodes[c].peers ==> p in u.nodes[c].nextIndex && u.nodes[c].nextIndex[p] == LastIdx(log) + 1)
            && Is(u.nodes[w], w, Follower, t.nodes[c].term, START)
  {
    Grants(t.nodes[w], w, c, t.nodes[c].term, t.nodes[c].log);
    CountsSecond(t.nodes[c], w);
  }

  lemma StandsUp(t: Scene, c: NodeId, v: NodeId, w: NodeId)
    requires Poll(t, c, v, w)
    ensures var u := TimedOut(t, c);
            && Votes(u, c, v, 1) && Votes(u, c, w, 1) && u.nodes == t.nodes[c := StartCandidacy(t.nodes[c])]
            && t.net + multiset{Ask(c, v, t.nodes[c].term + 1, t.nodes[c].log)} + multiset{Ask(c, w, t.nodes[c].term + 1, t.nodes[c].log)} <= u.net
  {
    Stands(t.nodes[c], v);
    Stands(t.nodes[c], w);
  }

  /** What the three steps add up to. */
  lemma Adds(t: Scene, u1: Scene, u2: Scene, u3: Scene, c: NodeId, v: NodeId, w: NodeId, k: Raft, l: Raft, g: Raft, h: Raft)
    requires Poll(t, c, v, w)
    requires var term, log := t.nodes[c].term + 1, t.nodes[c].log;
             && u1.nodes == t.nodes[c := k] && t.net + multiset{Ask(c, v, term, log)} + multiset{Ask(c, w, term, log)} <= u1.net
             && c in u2.nodes && u2.nodes == u1.nodes[v := g][c := u2.nodes[c]] && u2.net == u1.net - multiset{Ask(c, v, term, log)}
             && u3.nodes == u2.nodes[w := h][c := l] && u3.net == u2.net - multiset{Ask(c, w, term, log)}
             && Is(l, c, Leader, term, log + [Entry(NoOp, LastIdx(log) + 1, term)]) && l.peers == t.nodes[c].peers
             && (forall p :: p in t.nodes[c].peers ==> p in l.nextIndex && l.nextIndex[p] == LastIdx(log) + 1)
             && Is(g, v, Follower, term, START) && Is(h, w, Follower, term, START)
    ensures Won(t, u3, c, v, w)
  {
  }

  lemma Wins(t: Scene, c: NodeId, v: NodeId, w: NodeId)
    requires Poll(t, c, v, w)
    ensures var u1 := TimedOut(t, c);
            && Votes(u1, c, v, 1) && Votes(Voted(u1, c, v), c, w, 2)
            && Won(t, Voted(Voted(u1, c, v), c, w), c, v, w)
  {
    StandsUp(t, c, v, w);
    var u1 := TimedOut(t, c);
    FirstVote(u1, c, v, w);
    var u2 := Voted(u1, c, v);
    SecondVote(u2, c, w);
    var u3 := Voted(u2, c, w);
    Adds(t, u1, u2, u3, c, v, w, u1.nodes[c], u3.nodes[c], u2.nodes[v], u3.nodes[w]);
  }

  lemma Elects(states: seq<System>, t: Scene, c: NodeId, v: NodeId, w: NodeId) returns (more: seq<System>, u: Scene)
    requires At(states, t) && Poll(t, c, v, w)
    ensures At(more, u) && Won(t, u, c, v, w)
  {
    Wins(t, c, v, w);
    more := Time(states, t, c);
    u := TimedOut(t, c);
    more := Vote(more, u, c, v, 1);
    u := Voted(u, c, v);
    more := Vote(more, u, c, w, 2);
    u := Voted(u, c, w);
  }

  // --------------------------------------------------------- what the handlers do

  const SEND3 := Packet(0, 1, AppendEntries(1, 1, Some(Prev(1, 0)), [Entry(NoOp, 2, 1), Entry(CMD, 3, 1), Entry(CMD, 4, 1)]))
  const BEAT := Packet(0, 1, AppendEntries(1, 1, Some(Prev(5, 1)), []))
  const LATE := Packet(1, 0, NextNodeIdx(5, true, false))
  const CUT := Packet(2, 0, AppendEntries(2, 1, Some(Prev(1, 0)), [Entry(NoOp, 2, 2)]))

  lemma SendsThree(r: Raft)
    requires Leads(r, 0, 1, OLD_LOG5, 1, 2)
    ensures var (q, p) := SendAppend(r, 1, 3);
            Leads(q, 0, 1, OLD_LOG5, 1, 5) && q.peers == r.peers && p == SEND3
  {
    Stretched(OLD_LOG5, 2, 3);
    assert OLD_LOG5[1..4] == SEND3.msg.entries;
  }

  lemma TakesThree(f: Raft)
    requires Is(f, 1, Follower, 0, START)
    ensures Is(Receive(f, 0, SEND3.msg).0, 1, Follower, 1, OLD_LOG)
  {
    assert START[..1] + SEND3.msg.entries == OLD_LOG;
  }

  lemma SendsOne(r: Raft)
    requires Leads(r, 0, 1, OLD_LOG5, 1, 5)
    ensures var (q, p) := SendAppend(r, 1, 1);
            Leads(q, 0, 1, OLD_LOG5, 1, 6) && q.peers == r.peers
  {
    Stretched(OLD_LOG5, 5, 1);
  }

  lemma Beats(r: Raft)
    requires Leads(r, 0, 1, OLD_LOG5, 1, 6)
    ensures SendAppend(r, 1, 1) == (r, BEAT)
  {
    Stretched(OLD_LOG5, 6, 1);
  }

  /** What a sending round finds in a log. */
  lemma Stretched(log: Log, next: nat, batch: nat)
    requires |log| > 0 && log[0].idx == 1 && 2 <= next <= |log| + 1
    ensures Take(EntriesFrom(log, next), batch) ==
              if next > |log| then [] else if batch < |log| + 1 - next then log[next - 1..next - 1 + batch] else log[next - 1..]
    ensures PrevOf(log, next) == Some(Prev(next - 1, log[next - 2].term))
  {
    assert EntriesFrom(log, next) == if next > |log| then [] else log[next - 1..];
  }

  lemma Refuses(f: Raft)
    requires Is(f, 1, Follower, 1, OLD_LOG)
    ensures var (g, out) := Receive(f, 0, BEAT.msg); Is(g, 1, Follower, 1, OLD_LOG) && out == multiset{LATE}
  {
    assert EntriesFrom(OLD_LOG, 5) == [];
  }

  lemma SendsCut(r: Raft)
    requires Leads(r, 2, 2, LOG2, 0, 2)
    ensures SendAppend(r, 0, 1).1 == CUT
  {
    Stretched(LOG2, 2, 1);
    assert LOG2[1..] == [Entry(NoOp, 2, 2)];
  }

  lemma TakesCut(r: Raft)
    requires r.id == 0 && |r.peers| == 4 && r.term == 1 && r.log == OLD_LOG5
    ensures var q := Receive(r, 2, CUT.msg).0; Is(q, 0, Follower, 2, LOG2) && q.peers == r.peers
  {
    assert EntriesFrom(OLD_LOG5, 1) == OLD_LOG5;
    assert OLD_LOG5[..1] + [Entry(NoOp, 2, 2)] == LOG2;
  }

  lemma TakesLate(r: Raft)
    requires Is(r, 0, Leader, 3, LOG3) && 1 in r.peers
    ensures Leads(Receive(r, 1, LATE.msg).0, 0, 3, LOG3, 1, 5)
  {
  }

  // ------------------------------------------------------------------------ the run

  lemma Fresh(id: NodeId)
    requires id in ALL
    ensures |ALL - {id}| == 4
  {
    assert ALL == (ALL - {id}) + {id};
    assert |ALL| == 5;
  }

  predicate Peers0(r: Raft) {
    1 in r.peers && 3 in r.peers && 4 in r.peers
  }

  predicate Peers2(r: Raft) {
    0 in r.peers && 3 in r.peers && 4 in r.peers
  }

  /** The five nodes are there. */
  predicate Full(t: Scene) {
    Has(t, 0) && Has(t, 1) && Has(t, 2) && Has(t, 3) && Has(t, 4)
  }

  lemma FreshIs(n: NodeId)
    requires n in ALL
    ensures Is(InitialRaft(n, ALL - {n}, 0), n, Follower, 0, START) && InitialRaft(n, ALL - {n}, 0).peers == ALL - {n}
  {
    Fresh(n);
  }

  ghost predicate FreshAt(nodes: map<NodeId, Raft>, n: NodeId) {
    n in nodes && nodes[n] == InitialRaft(n, ALL - {n}, 0)
  }

  ghost predicate AllFresh(nodes: map<NodeId, Raft>) {
    nodes.Keys == ALL && forall n {:trigger FreshAt(nodes, n)} :: n in ALL ==> FreshAt(nodes, n)
  }

  lemma BeginsWith(s: System)
    requires AllFresh(s.nodes) && s.net == multiset{}
    requires s.hist == History(map[], map[], map n | n in s.nodes :: {}, {}, map[0 := [FIRST_ENTRY]],
                               map n | n in s.nodes :: 0, map n | n in s.nodes :: [])
    ensures Init(s)
  {
    forall n | n in s.nodes ensures StartsFresh(s, n) {
      assert FreshAt(s.nodes, n);
    }
  }

  lemma FreshNodes() returns (nodes: map<NodeId, Raft>)
    ensures AllFresh(nodes)
  {
    nodes := map n | n in ALL :: InitialRaft(n, ALL - {n}, 0);
  }

  lemma Begins() returns (states: seq<System>, t: Scene)
    ensures At(states, t) && AllFresh(t.nodes)
  {
    var nodes := FreshNodes();
    var s := System(nodes, multiset{},
                    History(map[], map[], map n | n in nodes :: {}, {}, map[0 := [FIRST_ENTRY]],
                            map n | n in nodes :: 0, map n | n in nodes :: []));
    BeginsWith(s);
    states := [s];
    t := Scene(nodes, multiset{});
    LastRunning(states);
  }

  lemma FreshNode(t: Scene, n: NodeId)
    requires AllFresh(t.nodes) && n in ALL
    ensures Has(t, n) && Is(t.nodes[n], n, Follower, 0, START) && t.nodes[n].peers == ALL - {n}
  {
    assert FreshAt(t.nodes, n);
    FreshIs(n);
  }

  lemma FreshPeers(t: Scene, n: NodeId, p: NodeId)
    requires AllFresh(t.nodes) && n in ALL && p in ALL && p != n
    ensures Has(t, n) && p in t.nodes[n].peers
  {
    FreshNode(t, n);
  }

  lemma FirstPoll(t: Scene)
    requires AllFresh(t.nodes)
    ensures Full(t) && Poll(t, 0, 3, 4) && Peers0(t.nodes[0]) && Peers2(t.nodes[2])
    ensures Is(t.nodes[0], 0, Follower, 0, START) && Is(t.nodes[1], 1, Follower, 0, START) && Is(t.nodes[2], 2, Follower, 0, START)
  {
    FreshNode(t, 0);
    FreshNode(t, 1);
    FreshNode(t, 2);
    FreshNode(t, 3);
    FreshNode(t, 4);
    FreshPeers(t, 0, 1);
    FreshPeers(t, 0, 3);
    FreshPeers(t, 0, 4);
    FreshPeers(t, 2, 0);
    FreshPeers(t, 2, 3);
    FreshPeers(t, 2, 4);
  }

  lemma FirstLeader() returns (states: seq<System>, t: Scene)
    ensures At(states, t) && Full(t) && Peers0(t.nodes[0]) && Peers2(t.nodes[2])
    ensures Leads(t.nodes[0], 0, 1, [FIRST_ENTRY, Entry(NoOp, 2, 1)], 1, 2)
    ensures Is(t.nodes[1], 1, Follower, 0, START) && Is(t.nodes[2], 2, Follower, 0, START)
    ensures Is(t.nodes[3], 3, Follower, 1, START) && Is(t.nodes[4], 4, Follower, 1, START)
  {
    states, t := Begins();
    FirstPoll(t);
    assert START + [Entry(NoOp, 2, 1)] == [FIRST_ENTRY, Entry(NoOp, 2, 1)];
    states, t := Elects(states, t, 0, 3, 4);
  }

  /** Nodes 2, 3 and 4 after the first election. */
  predicate Others(t: Scene) {
    && Full(t) && Peers0(t.nodes[0]) && Peers2(t.nodes[2]) && Is(t.nodes[2], 2, Follower, 0, START)
    && Is(t.nodes[3], 3, Follower, 1, START) && Is(t.nodes[4], 4, Follower, 1, START)
  }

  lemma LogsOne(states: seq<System>, t: Scene, log: Log) returns (more: seq<System>, u: Scene)
    requires At(states, t) && Others(t) && |log| > 0 && Leads(t.nodes[0], 0, 1, log, 1, 2) && Is(t.nodes[1], 1, Follower, 0, START)
    ensures At(more, u) && Others(u) && Is(u.nodes[1], 1, Follower, 0, START)
    ensures Leads(u.nodes[0], 0, 1, log + [Entry(CMD, LastIdx(log) + 1, 1)], 1, 2)
  {
    more := Append(states, t, 0, CMD);
    u := Appended(t, 0, CMD);
  }

  lemma Logs() returns (states: seq<System>, t: Scene)
    ensures At(states, t) && Others(t) && Leads(t.nodes[0], 0, 1, OLD_LOG5, 1, 2) && Is(t.nodes[1], 1, Follower, 0, START)
  {
    states, t := FirstLeader();
    assert [FIRST_ENTRY, Entry(NoOp, 2, 1)] + [Entry(CMD, 3, 1)] + [Entry(CMD, 4, 1)] == OLD_LOG;
    states, t := LogsOne(states, t, [FIRST_ENTRY, Entry(NoOp, 2, 1)]);
    states, t := LogsOne(states, t, [FIRST_ENTRY, Entry(NoOp, 2, 1)] + [Entry(CMD, 3, 1)]);
    states, t := LogsOne(states, t, OLD_LOG);
  }

  lemma Ships(states: seq<System>, t: Scene, batch: nat, next: nat) returns (more: seq<System>, u: Scene)
    requires At(states, t) && Others(t) && Is(t.nodes[0], 0, Leader, 1, OLD_LOG5) && batch > 0
    requires 1 in t.nodes[0].nextIndex
    requires var q := SendAppend(t.nodes[0], 1, batch).0; Leads(q, 0, 1, OLD_LOG5, 1, next) && q.peers == t.nodes[0].peers
    ensures At(more, u) && Others(u) && Leads(u.nodes[0], 0, 1, OLD_LOG5, 1, next) && u.nodes[1] == t.nodes[1]
    ensures SendAppend(t.nodes[0], 1, batch).1 in u.net
  {
    more := Ship(states, t, 0, 1, batch);
    u := Sent(t, 0, 1, batch);
  }

  lemma ThreeSent() returns (states: seq<System>, t: Scene)
    ensures At(states, t) && Others(t) && Leads(t.nodes[0], 0, 1, OLD_LOG5, 1, 5) && Is(t.nodes[1], 1, Follower, 0, START) && SEND3 in t.net
  {
    states, t := Logs();
    SendsThree(t.nodes[0]);
    states, t := Ships(states, t, 3, 5);
  }

  lemma Follows() returns (states: seq<System>, t: Scene)
    ensures At(states, t) && Others(t) && Leads(t.nodes[0], 0, 1, OLD_LOG5, 1, 5) && Is(t.nodes[1], 1, Follower, 1, OLD_LOG)
  {
    states, t := ThreeSent();
    TakesThree(t.nodes[1]);
    states := Carry(states, t, SEND3);
    t := Delivered(t, SEND3);
  }

  lemma BeatSent() returns (states: seq<System>, t: Scene)
    ensures At(states, t) && Others(t) && BEAT in t.net
    ensures Is(t.nodes[0], 0, Leader, 1, OLD_LOG5) && Is(t.nodes[1], 1, Follower, 1, OLD_LOG)
  {
    states, t := Follows();
    SendsOne(t.nodes[0]);
    states, t := Ships(states, t, 1, 6);
    Beats(t.nodes[0]);
    states, t := Ships(states, t, 1, 6);
  }

  /** Node 1 refuses a heartbeat that follows an entry it has not got. */
  lemma RefusesOne() returns (states: seq<System>, t: Scene)
    ensures At(states, t) && Others(t) && LATE in t.net
    ensures Is(t.nodes[0], 0, Leader, 1, OLD_LOG5) && Is(t.nodes[1], 1, Follower, 1, OLD_LOG)
  {
    states, t := BeatSent();
    Refuses(t.nodes[1]);
    states := Carry(states, t, BEAT);
    t := Delivered(t, BEAT);
  }

  lemma StandsInVain(r: Raft)
    requires Is(r, 2, Follower, 0, START)
    ensures Is(StartElection(r).0, 2, Candidate, 1, START) && StartElection(r).0.peers == r.peers
  {
  }

  /** Node 2 wins term 2 without an entry of term 1. */
  lemma SecondPoll() returns (states: seq<System>, t: Scene)
    ensures At(states, t) && Full(t) && Peers0(t.nodes[0]) && Peers2(t.nodes[2]) && LATE in t.net && Poll(t, 2, 3, 4)
    ensures Is(t.nodes[0], 0, Leader, 1, OLD_LOG5) && Is(t.nodes[1], 1, Follower, 1, OLD_LOG) && Is(t.nodes[2], 2, Candidate, 1, START)
  {
    states, t := RefusesOne();
    StandsInVain(t.nodes[2]);
    states := Time(states, t, 2);
    t := TimedOut(t, 2);
  }

  lemma SecondLeader() returns (states: seq<System>, t: Scene)
    ensures At(states, t) && Full(t) && Peers0(t.nodes[0]) && LATE in t.net
    ensures Is(t.nodes[0], 0, Leader, 1, OLD_LOG5) && Is(t.nodes[1], 1, Follower, 1, OLD_LOG)
    ensures Leads(t.nodes[2], 2, 2, LOG2, 0, 2)
    ensures Is(t.nodes[3], 3, Follower, 2, START) && Is(t.nodes[4], 4, Follower, 2, START)
  {
    states, t := SecondPoll();
    assert START + [Entry(NoOp, 2, 2)] == LOG2;
    states, t := Elects(states, t, 2, 3, 4);
  }

  lemma CutSent() returns (states: seq<System>, t: Scene)
    ensures At(states, t) && Full(t) && Peers0(t.nodes[0]) && LATE in t.net && CUT in t.net
    ensures Is(t.nodes[0], 0, Leader, 1, OLD_LOG5) && Is(t.nodes[1], 1, Follower, 1, OLD_LOG)
    ensures Is(t.nodes[3], 3, Follower, 2, START) && Is(t.nodes[4], 4, Follower, 2, START)
  {
    states, t := SecondLeader();
    SendsCut(t.nodes[2]);
    states := Ship(states, t, 2, 0, 1);
    t := Sent(t, 2, 0, 1);
  }

  /** It cuts the log of node 0. */
  lemma CutsLog() returns (states: seq<System>, t: Scene)
    ensures At(states, t) && Full(t) && Peers0(t.nodes[0]) && LATE in t.net
    ensures Is(t.nodes[0], 0, Follower, 2, LOG2) && Is(t.nodes[1], 1, Follower, 1, OLD_LOG)
    ensures Is(t.nodes[3], 3, Follower, 2, START) && Is(t.nodes[4], 4, Follower, 2, START)
  {
    states, t := CutSent();
    TakesCut(t.nodes[0]);
    states := Carry(states, t, CUT);
    t := Delivered(t, CUT);
  }

  lemma ThirdLeader() returns (states: seq<System>, t: Scene)
    ensures At(states, t) && Has(t, 0) && Has(t, 1) && LATE in t.net
    ensures Is(t.nodes[0], 0, Leader, 3, LOG3) && 1 in t.nodes[0].peers && Is(t.nodes[1], 1, Follower, 1, OLD_LOG)
  {
    states, t := CutsLog();
    assert LOG2 + [Entry(NoOp, 3, 3)] == LOG3;
    states, t := Elects(states, t, 0, 3, 4);
  }

  /** Node 0 leads term 3, and the answer from term 1 arrives. */
  lemma LateAnswer() returns (states: seq<System>, t: Scene)
    ensures At(states, t) && Has(t, 0) && Has(t, 1)
    ensures Leads(t.nodes[0], 0, 3, LOG3, 1, 5) && Is(t.nodes[1], 1, Follower, 1, OLD_LOG)
  {
    states, t := ThirdLeader();
    TakesLate(t.nodes[0]);
    states := Carry(states, t, LATE);
    t := Delivered(t, LATE);
  }

  /** Left to themselves, leader 0 and follower 1 never come to the same log, however
      many rounds they go through. */
  lemma NeverCatchesUp(batches: seq<nat>) returns (states: seq<System>)
    requires forall k :: 0 <= k < |batches| ==> batches[k] > 0
    ensures Run(states) && 0 in states[|states| - 1].nodes && 1 in states[|states| - 1].nodes
    ensures var l, f := states[|states| - 1].nodes[0], states[|states| - 1].nodes[1];
            && l.role == Leader && 1 in l.peers && f.term <= l.term && Paired(l, f)
            && Rounds(l, f, batches).1.log != l.log
  {
    var t: Scene;
    states, t := LateAnswer();
    var i := |states| - 1;
    ReachablePair(states, i, 0, 1);
    StillBeyond(states[i].nodes[0], states[i].nodes[1], batches);
  }
}
