/** A cluster of two nodes, up to the first election: what the witness runs share. */
module RaftPair {
  import opened Options
  import opened RaftTypes
  import opened RaftProtocol

  const E2 := Entry(NoOp, 2, 1)
  const LOG2 := [FIRST_ENTRY, E2]

  const ASK := Packet(0, 1, RequestVote(1, 1, 0))
  const VOTE := Packet(1, 0, ResponseVote(1))

  /** Node 0 once it leads term 1. */
  predicate Leads(a: Raft, log: Log, commit: nat, applied: nat, next: nat, matched: int) {
    && a.id == 0 && a.peers == {1} && a.selfVer == 0 && a.role == Leader && a.term == 1
    && a.log == log && a.commitIndex == commit && a.lastApplied == applied
    && 1 in a.nextIndex && a.nextIndex[1] == next && 1 in a.matchIndex && a.matchIndex[1] == matched
  }

  /** Node 1 once it voted in term 1. */
  predicate Follows(b: Raft, leader: Option<NodeId>, log: Log, commit: nat, applied: nat) {
    && b.id == 1 && b.peers == {0} && b.selfVer == 0 && b.role == Follower && b.term == 1 && b.leader == leader
    && b.log == log && b.commitIndex == commit && b.lastApplied == applied
  }

  lemma Asks()
    ensures StartElection(InitialRaft(0, {1}, 0)) == (StartCandidacy(InitialRaft(0, {1}, 0)), multiset{ASK})
  {
    assert (set p: NodeId | p in {1} :: Packet(0, p, ASK.msg)) == {ASK};
    assert StartElection(InitialRaft(0, {1}, 0)).1 == multiset{ASK};
  }

  lemma Votes()
    ensures var (b, out) := Receive(InitialRaft(1, {0}, 0), 0, ASK.msg);
            Follows(b, None, [FIRST_ENTRY], 1, 1) && out == multiset{VOTE}
  {
  }

  lemma Wins()
    ensures Leads(Receive(StartCandidacy(InitialRaft(0, {1}, 0)), 1, VOTE.msg).0, LOG2, 1, 1, 2, 0)
  {
    assert [FIRST_ENTRY] + [E2] == LOG2;
  }
}
