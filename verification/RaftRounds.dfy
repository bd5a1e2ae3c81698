/** What the loops of a node add up to, one round at a time. */
module RaftRounds {
  import opened Lists
  import opened Options
  import opened RaftTypes
  import opened RaftProtocol
  import opened RaftClient

  ghost function PeerSet(nodes: seq<NodeId>): set<NodeId> {
    set p | p in nodes
  }

  lemma PeersNext(nodes: seq<NodeId>, i: nat)
    requires i < |nodes|
    ensures PeerSet(nodes[..i + 1]) == PeerSet(nodes[..i]) + {nodes[i]}
  {
    assert nodes[..i + 1] == nodes[..i] + [nodes[i]];
  }

  lemma PeersDiffer(nodes: seq<NodeId>, i: nat)
    requires i < |nodes| && Distinct(nodes)
    ensures nodes[i] !in PeerSet(nodes[..i])
  {
  }

  lemma {:induction false} PeerCountTo(nodes: seq<NodeId>, i: nat)
    requires i <= |nodes| && Distinct(nodes)
    ensures |PeerSet(nodes[..i])| == i
  {
    if i > 0 {
      PeerCountTo(nodes, i - 1);
      PeersNext(nodes, i - 1);
      PeersDiffer(nodes, i - 1);
    }
  }

  lemma PeerCount(nodes: seq<NodeId>)
    requires Distinct(nodes)
    ensures |PeerSet(nodes)| == |nodes|
  {
    PeerCountTo(nodes, |nodes|);
    assert nodes[..|nodes|] == nodes;
  }

  ghost function Packets(id: NodeId, peers: set<NodeId>, msg: Message): multiset<Packet> {
    multiset(set p | p in peers :: Packet(id, p, msg))
  }

  lemma PacketsNext(id: NodeId, nodes: seq<NodeId>, i: nat, msg: Message)
    requires i < |nodes| && Distinct(nodes)
    ensures Packets(id, PeerSet(nodes[..i + 1]), msg) == Packets(id, PeerSet(nodes[..i]), msg) + multiset{Packet(id, nodes[i], msg)}
  {
    PeersNext(nodes, i);
    PeersDiffer(nodes, i);
    var some := set p | p in PeerSet(nodes[..i]) :: Packet(id, p, msg);
    var more := set p | p in PeerSet(nodes[..i + 1]) :: Packet(id, p, msg);
    assert more == some + {Packet(id, nodes[i], msg)};
    assert Packet(id, nodes[i], msg) !in some;
  }

  function TotalSize(es: seq<Entry>, size: Entry -> nat): nat
    decreases |es|
  {
    if es == [] then 0 else TotalSize(es[..|es| - 1], size) + size(es[|es| - 1])
  }

  /** Rounds of the sending loop for one peer, with the batches they sent. */
  ghost function SendRounds(r: Raft, peer: NodeId, rounds: seq<nat>): (s: (Raft, multiset<Packet>))
    requires |r.log| > 0 && peer in r.nextIndex
    ensures s.0.log == r.log && peer in s.0.nextIndex
    decreases |rounds|
  {
    if rounds == [] then (r, multiset{})
    else
      var (q, out) := SendRounds(r, peer, rounds[..|rounds| - 1]);
      var (next, p) := SendAppend(q, peer, rounds[|rounds| - 1]);
      (next, out + multiset{p})
  }

  lemma RoundNext(r: Raft, peer: NodeId, rounds: seq<nat>, batch: nat)
    requires |r.log| > 0 && peer in r.nextIndex
    ensures var (q, out) := SendRounds(r, peer, rounds);
            var (next, p) := SendAppend(q, peer, batch);
            SendRounds(r, peer, rounds + [batch]) == (next, out + multiset{p})
  {
    assert (rounds + [batch])[..|rounds|] == rounds;
  }

  ghost function AckersAmong(matches: map<NodeId, int>, peers: set<NodeId>, index: nat): set<NodeId> {
    set p | p in peers && p in matches && matches[p] >= index
  }

  lemma AckersNext(matches: map<NodeId, int>, nodes: seq<NodeId>, i: nat, index: nat)
    requires i < |nodes| && Distinct(nodes) && nodes[i] in matches
    ensures |AckersAmong(matches, PeerSet(nodes[..i + 1]), index)| ==
              |AckersAmong(matches, PeerSet(nodes[..i]), index)| + if matches[nodes[i]] >= index then 1 else 0
  {
    PeersNext(nodes, i);
    PeersDiffer(nodes, i);
    var some, more := AckersAmong(matches, PeerSet(nodes[..i]), index), AckersAmong(matches, PeerSet(nodes[..i + 1]), index);
    assert more == if matches[nodes[i]] >= index then some + {nodes[i]} else some;
  }

  lemma AllAckers(r: Raft, index: nat)
    ensures AckersAmong(r.matchIndex, r.peers, index) == Ackers(r, index)
  {
  }

  /** The peers that a leader takes to hold an index. */
  function Holders(r: Raft, i: nat): set<NodeId> {
    set p | p in r.peers && p in r.matchIndex && r.matchIndex[p] >= i
  }

  /** The index is held by more than half of the cluster, the leader included. */
  predicate HeldByMost(r: Raft, i: nat) {
    2 * (1 + |Holders(r, i)|) > |r.peers| + 1
  }

  /** The commit loop passes exactly the indices behind the committed ones that most
      hold, up to the first that they do not or the end of the log. */
  lemma CommitsToIff(r: Raft, c: nat)
    requires |r.log| > 0
    ensures CommitsTo(r, c) <==>
              && r.commitIndex <= c && (c > r.commitIndex ==> c <= LastIdx(r.log))
              && (forall i :: r.commitIndex < i <= c ==> HeldByMost(r, i))
              && (c < LastIdx(r.log) ==> !HeldByMost(r, c + 1))
  {
    forall i: nat ensures HeldByMost(r, i) <==> Majority(r, |Ackers(r, i)| + 1) {
      assert Holders(r, i) == Ackers(r, i);
    }
  }

  lemma SameAckers(a: Raft, b: Raft, index: nat)
    requires a.peers == b.peers && a.matchIndex == b.matchIndex
    ensures Ackers(a, index) == Ackers(b, index)
  {
  }

  lemma {:induction false} ExecutedMore(es: seq<Entry>, e: Entry, selfVer: nat)
    ensures |Executed(es + [e], selfVer)| == |Executed(es, selfVer)| + if Supported(e.cmd, selfVer) then 1 else 0
  {
    if es != [] {
      ExecutedMore(es[1..], e, selfVer);
      assert (es + [e])[1..] == es[1..] + [e];
    }
  }

  lemma ExecutedNext(es: seq<Entry>, i: nat, selfVer: nat)
    requires i < |es|
    ensures |Executed(es[..i + 1], selfVer)| == |Executed(es[..i], selfVer)| + if Supported(es[i].cmd, selfVer) then 1 else 0
  {
    assert es[..i + 1] == es[..i] + [es[i]];
    ExecutedMore(es[..i], es[i], selfVer);
  }

  lemma PastTheEnd(log: Log, next: nat)
    requires WellFormedLog(log) && next > log[0].idx
    ensures EntriesFrom(log, next) == [] <==> next > LastIdx(log)
  {
  }

  lemma ApplyNext(c: Client, es: seq<Entry>, i: nat, selfVer: nat)
    requires i < |es|
    ensures ApplyEntries(c, es[..i + 1], selfVer) == ApplyEntry(ApplyEntries(c, es[..i], selfVer), es[i], selfVer)
  {
    assert es[..i + 1][..i] == es[..i];
  }

  lemma NotifyNext(subscribers: seq<Waiting>, k: nat, entry: Entry)
    requires k < |subscribers|
    ensures Notify(subscribers[..k + 1], entry) ==
              Notify(subscribers[..k], entry)
              + [Fired(subscribers[k].cb, if subscribers[k].term == entry.term then Success(entry) else Failure(Discarded))]
  {
  }

  ghost function Told(waiting: map<nat, Callback>, ids: seq<nat>): seq<Fired>
    requires forall i :: 0 <= i < |ids| ==> ids[i] in waiting
  {
    seq(|ids|, i requires 0 <= i < |ids| => Fired(waiting[ids[i]], Failure(LeaderChanged)))
  }

  lemma ToldNext(waiting: map<nat, Callback>, ids: seq<nat>, i: nat)
    requires i < |ids| && forall k :: 0 <= k < |ids| ==> ids[k] in waiting
    ensures Told(waiting, ids[..i + 1]) == Told(waiting, ids[..i]) + [Fired(waiting[ids[i]], Failure(LeaderChanged))]
  {
  }

  lemma LeaderChangedIs(c: Client)
    ensures OnLeaderChanged(c) ==
              c.(waitingReply := map[], fired := c.fired + Told(c.waitingReply, WaitingIds(c.waitingReply, 1, c.counter)))
  {
    var ids := WaitingIds(c.waitingReply, 1, c.counter);
    var calls := seq(|ids|, i requires 0 <= i < |ids| => Fired(c.waitingReply[ids[i]], Failure(LeaderChanged)));
    assert calls == Told(c.waitingReply, ids);
    assert OnLeaderChanged(c).fired == c.fired + calls;
  }

  ghost function AllTo<V>(peers: set<NodeId>, v: V): map<NodeId, V> {
    map p | p in peers :: v
  }

  lemma AllToNext<V>(before: map<NodeId, V>, nodes: seq<NodeId>, i: nat, v: V)
    requires i < |nodes|
    ensures before + AllTo(PeerSet(nodes[..i + 1]), v) == (before + AllTo(PeerSet(nodes[..i]), v))[nodes[i] := v]
  {
    PeersNext(nodes, i);
  }

  /** Every peer starts behind the log, with nothing matched. */
  ghost predicate Restarts(nodes: seq<NodeId>, next: map<NodeId, nat>, matched: map<NodeId, int>, start: nat) {
    forall p :: p in nodes ==> p in next && next[p] == start && p in matched && matched[p] == 0
  }

  lemma AllRestart(next: map<NodeId, nat>, matched: map<NodeId, int>, nodes: seq<NodeId>, start: nat)
    ensures Restarts(nodes, next + AllTo(PeerSet(nodes), start), matched + AllTo(PeerSet(nodes), 0), start)
  {
  }

  lemma BecomeLeaderIs(r: Raft, q: Raft)
    requires |r.log| > 0
    requires var next := LastIdx(r.log) + 1;
             q == r.(leader := Some(r.id), role := Leader,
                     nextIndex := r.nextIndex + AllTo(r.peers, next), matchIndex := r.matchIndex + AllTo(r.peers, 0),
                     log := r.log + [Entry(NoOp, next, r.term)])
    ensures q == BecomeLeader(r)
  {
    var b := BecomeLeader(r);
    assert b.nextIndex == q.nextIndex;
    assert b.matchIndex == q.matchIndex;
  }
}
