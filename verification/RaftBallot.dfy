/** What it takes to win an election: which nodes vote for a candidate that asks them,
    and how many of them make it the leader. */
module RaftBallot {
  import opened Options
  import opened RaftTypes
  import opened RaftProtocol

  /** The node has no business in this term yet: it is behind it, or it is in it, does
      not lead it and did not vote. */
  predicate StillFree(v: Raft, term: nat) {
    v.term < term || (v.term == term && v.role != Leader && v.votedFor.None?)
  }

  /** The log ends in an earlier term than a log with this end, or in the same term and
      not behind it. */
  predicate EndsNoLater(log: Log, lastTerm: nat, lastIdx: nat)
    requires |log| > 0
  {
    var e := log[|log| - 1];
    e.term < lastTerm || (e.term == lastTerm && e.idx <= lastIdx)
  }

  predicate Willing(v: Raft, term: nat, lastTerm: nat, lastIdx: nat)
    requires |v.log| > 0
  {
    StillFree(v, term) && EndsNoLater(v.log, lastTerm, lastIdx)
  }

  /** A node that is asked for its vote answers if and only if it is free in that term
      and its own log ends no later; then it remembers whom it voted for. It takes over
      a larger term in any case, and its log stays. */
  lemma VotesIff(v: Raft, src: NodeId, term: nat, lastTerm: nat, lastIdx: nat)
    requires |v.log| > 0
    ensures var (w, out) := Receive(v, src, RequestVote(term, lastIdx, lastTerm));
            && w.log == v.log && w.term == (if v.term < term then term else v.term)
            && (if Willing(v, term, lastTerm, lastIdx)
                then out == multiset{Packet(v.id, src, ResponseVote(term))} && w.votedFor == Some(src)
                else out == multiset{} && w.votedFor == (if v.term < term then None else v.votedFor))
  {
  }

  /** The candidate asks one node, and counts its answer if there is one. */
  ghost function Ask(c: Raft, v: Raft, term: nat, lastTerm: nat, lastIdx: nat): (r: Raft)
    requires |c.log| > 0 && |v.log| > 0
  {
    var out := Receive(v, c.id, RequestVote(term, lastIdx, lastTerm)).1;
    if Packet(v.id, c.id, ResponseVote(term)) in out then Receive(c, v.id, ResponseVote(term)).0 else c
  }

  /** It asks these nodes one after the other. */
  ghost function AskAll(c: Raft, voters: seq<Raft>, term: nat, lastTerm: nat, lastIdx: nat): (r: Raft)
    requires |c.log| > 0 && forall i :: 0 <= i < |voters| ==> |voters[i].log| > 0
    ensures |r.log| > 0
    decreases |voters|
  {
    if voters == [] then c
    else
      var n := |voters| - 1;
      Ask(AskAll(c, voters[..n], term, lastTerm, lastIdx), voters[n], term, lastTerm, lastIdx)
  }

  function CountWilling(voters: seq<Raft>, term: nat, lastTerm: nat, lastIdx: nat): nat
    requires forall i :: 0 <= i < |voters| ==> |voters[i].log| > 0
    decreases |voters|
  {
    if voters == [] then 0
    else
      var n := |voters| - 1;
      CountWilling(voters[..n], term, lastTerm, lastIdx) + if Willing(voters[n], term, lastTerm, lastIdx) then 1 else 0
  }

  /** This many votes, its own among them, are more than half of the cluster. */
  predicate Enough(votes: int, peers: set<NodeId>) {
    2 * votes > |peers| + 1
  }

  /** Node r stood for election in this term and has so many votes, its own among them:
      it leads once they are enough, from the log it had and the no-op of the term. */
  ghost predicate Stands(r: Raft, c: Raft, votes: nat)
    requires |r.log| > 0
  {
    && c.id == r.id && c.peers == r.peers && c.term == r.term + 1 && |c.log| > 0
    && if Enough(votes, r.peers)
       then c.role == Leader && c.log == r.log + [Entry(NoOp, r.log[|r.log| - 1].idx + 1, r.term + 1)]
       else c.role == Candidate && c.votesCount == votes && c.log == r.log
  }

  lemma AskedStands(r: Raft, c: Raft, votes: nat, v: Raft, lastTerm: nat, lastIdx: nat)
    requires |r.log| > 0 && |v.log| > 0 && Stands(r, c, votes)
    ensures Stands(r, Ask(c, v, r.term + 1, lastTerm, lastIdx),
                   votes + if Willing(v, r.term + 1, lastTerm, lastIdx) then 1 else 0)
  {
    VotesIff(v, c.id, r.term + 1, lastTerm, lastIdx);
  }

  lemma {:induction false} AllStand(r: Raft, c: Raft, voters: seq<Raft>, lastTerm: nat, lastIdx: nat)
    requires |r.log| > 0 && Stands(r, c, 1) && forall i :: 0 <= i < |voters| ==> |voters[i].log| > 0
    ensures Stands(r, AskAll(c, voters, r.term + 1, lastTerm, lastIdx),
                   1 + CountWilling(voters, r.term + 1, lastTerm, lastIdx))
    decreases |voters|
  {
    if voters != [] {
      var n := |voters| - 1;
      AllStand(r, c, voters[..n], lastTerm, lastIdx);
      AskedStands(r, AskAll(c, voters[..n], r.term + 1, lastTerm, lastIdx),
                  1 + CountWilling(voters[..n], r.term + 1, lastTerm, lastIdx), voters[n], lastTerm, lastIdx);
    }
  }

  /** A node whose deadline passed stands for election and asks these nodes with the end
      of its log. */
  ghost function Campaign(r: Raft, voters: seq<Raft>): (c: Raft)
    requires |r.log| > 0 && forall i :: 0 <= i < |voters| ==> |voters[i].log| > 0
  {
    AskAll(StartElection(r).0, voters, r.term + 1, LastTerm(r.log), LastIdx(r.log))
  }

  /** What it asks its peers. */
  function Request(r: Raft): Message
    requires |r.log| > 0
  {
    RequestVote(r.term + 1, LastIdx(r.log), LastTerm(r.log))
  }

  function WillingAmong(r: Raft, voters: seq<Raft>): nat
    requires |r.log| > 0 && forall i :: 0 <= i < |voters| ==> |voters[i].log| > 0
  {
    CountWilling(voters, r.term + 1, LastTerm(r.log), LastIdx(r.log))
  }

  /** It asks every peer once, and when it has heard from these voters, it leads if and
      only if those among them that are free and whose logs end no later are, with
      itself, more than half of the cluster. */
  lemma ElectedIff(r: Raft, voters: seq<Raft>)
    requires |r.log| > 0 && forall i :: 0 <= i < |voters| ==> |voters[i].log| > 0
    ensures forall p :: StartElection(r).1[p] == if p.src == r.id && p.dst in r.peers && p.msg == Request(r) then 1 else 0
    ensures Campaign(r, voters).role == Leader <==> Enough(1 + WillingAmong(r, voters), r.peers)
    ensures Campaign(r, voters).role == Leader ==> Campaign(r, voters).log == r.log + [Entry(NoOp, LastIdx(r.log) + 1, r.term + 1)]
  {
    Asked(r, Request(r));
    AllStand(r, StartElection(r).0, voters, LastTerm(r.log), LastIdx(r.log));
  }

  lemma Asked(r: Raft, msg: Message)
    ensures forall p :: Broadcast(r, msg)[p] == if p.src == r.id && p.dst in r.peers && p.msg == msg then 1 else 0
  {
    var asked := set q | q in r.peers :: Packet(r.id, q, msg);
    forall p ensures p in asked <==> p.src == r.id && p.dst in r.peers && p.msg == msg {
    }
  }
}
