/** Elections. Votes are a bare counter in the source, so that a candidate wins
    only with distinct voters rests on each voter answering once per term and on
    the network not duplicating answers. */
module RaftElection {
  import opened RaftTypes
  import opened RaftProtocol
  import opened RaftSystem

  ghost predicate Shape(s: System) {
    Running(s) && forall n :: n in s.nodes ==> PeersOf(s.nodes[n], s.nodes.Keys)
  }

  /** A node votes once per term: its vote of the current term blocks another. */
  ghost predicate VotesRemembered(s: System) {
    forall k :: k in s.hist.votes ==>
      && k.1 in s.nodes && k.0 <= s.nodes[k.1].term
      && (k.0 == s.nodes[k.1].term ==> s.nodes[k.1].votedFor.Some?)
  }

  /** Every vote went to a candidacy whose log was at least as new as the
      voter's log at that moment. */
  ghost predicate BallotsFair(s: System) {
    && (forall k :: k in s.hist.candidacies ==> k.1 in s.nodes && k.0 <= s.nodes[k.1].term)
    && (forall k :: k in s.hist.votes ==>
          var key := (k.0, s.hist.votes[k].candidate);
          key in s.hist.candidacies && NoNewer(s.hist.votes[k].position, s.hist.candidacies[key]))
  }

  ghost predicate Supports(h: History, voters: set<NodeId>, term: nat, candidate: NodeId) {
    forall v :: v in voters ==> (term, v) in h.votes && h.votes[(term, v)].candidate == candidate
  }

  ghost predicate Elected(h: History, term: nat, n: NodeId) {
    exists e :: e in h.elections && e.term == term && e.leader == n
  }

  /** A candidate has counted distinct supporters and its log is still the one
      it announced. */
  ghost predicate CandidateOk(s: System, n: NodeId)
    requires Running(s) && n in s.nodes
  {
    var r := s.nodes[n];
    && (r.term, n) in s.hist.candidacies && s.hist.candidacies[(r.term, n)] == End(r.log)
    && r.votesCount == |s.hist.counted[n]|
    && s.hist.counted[n] <= s.nodes.Keys
    && Supports(s.hist, s.hist.counted[n], r.term, n)
    && !Elected(s.hist, r.term, n)
  }

  ghost predicate CandidatesOk(s: System)
    requires Running(s)
  {
    forall n :: n in s.nodes && s.nodes[n].role == Candidate ==> CandidateOk(s, n)
  }

  ghost predicate RequestOk(s: System, p: Packet)
    requires p.msg.RequestVote?
  {
    var key := (p.msg.term, p.src);
    key in s.hist.candidacies && s.hist.candidacies[key] == Position(p.msg.lastTerm, p.msg.lastIdx)
  }

  /** An answer in flight is the only one of its voter and term, and not yet
      counted. */
  ghost predicate ResponseOk(s: System, p: Packet)
    requires Running(s) && p.msg.ResponseVote?
  {
    var key := (p.msg.term, p.src);
    && s.net[p] == 1
    && p.dst in s.nodes
    && key in s.hist.votes && s.hist.votes[key].candidate == p.dst
    && (CountsVote(s.nodes[p.dst], p.msg) ==> p.src !in s.hist.counted[p.dst])
  }

  ghost predicate VoteTrafficOk(s: System)
    requires Running(s)
  {
    && (forall p :: p in s.net && p.msg.RequestVote? ==> RequestOk(s, p))
    && (forall p :: p in s.net && p.msg.ResponseVote? ==> ResponseOk(s, p))
  }

  ghost predicate ElectionOk(s: System, e: Election) {
    && e.leader in s.nodes && e.term <= s.nodes[e.leader].term
    && e.quorum <= s.nodes.Keys && 2 * |e.quorum| > |s.nodes.Keys|
    && Supports(s.hist, e.quorum, e.term, e.leader)
    && (e.term, e.leader) in s.hist.candidacies && s.hist.candidacies[(e.term, e.leader)] == e.position
  }

  ghost predicate ElectionsOk(s: System) {
    && (forall e :: e in s.hist.elections ==> ElectionOk(s, e))
    && (forall n :: n in s.nodes && s.nodes[n].role == Leader ==> Elected(s.hist, s.nodes[n].term, n))
    && (forall e, f :: e in s.hist.elections && f in s.hist.elections && e.term == f.term && e.leader == f.leader ==> e == f)
  }

  ghost predicate ElectionInv(s: System) {
    && Shape(s)
    && VotesRemembered(s)
    && BallotsFair(s)
    && CandidatesOk(s)
    && VoteTrafficOk(s)
    && ElectionsOk(s)
  }

  lemma ElectionInvInit(s: System)
    requires Init(s)
    ensures ElectionInv(s)
  {
    InitialShape(s);
    InitialElections(s);
  }

  lemma InitialFields(r: Raft, n: NodeId)
    requires r == InitialRaft(n, r.peers, r.selfVer)
    ensures |r.log| > 0 && r.id == n
  {
  }

  lemma InitialShape(s: System)
    requires Init(s)
    ensures Shape(s)
  {
    forall n | n in s.nodes ensures |s.nodes[n].log| > 0 && s.nodes[n].id == n && PeersOf(s.nodes[n], s.nodes.Keys) {
      assert StartsFresh(s, n);
      InitialFields(s.nodes[n], n);
    }
    assert s.hist.counted.Keys == s.nodes.Keys && s.hist.epoch.Keys == s.nodes.Keys && s.hist.applied.Keys == s.nodes.Keys;
  }

  lemma InitialElections(s: System)
    requires Init(s) && Shape(s)
    ensures VotesRemembered(s) && BallotsFair(s) && CandidatesOk(s) && VoteTrafficOk(s) && ElectionsOk(s)
  {
    forall n | n in s.nodes ensures s.nodes[n].role == Follower {
      assert StartsFresh(s, n);
    }
  }

  // ----------------------------------------- the five kinds of election event

  /** Only node n changed. */
  ghost predicate OnlyNode(s: System, t: System, n: NodeId) {
    && n in s.nodes && |s.nodes[n].log| > 0
    && t.nodes.Keys == s.nodes.Keys
    && (forall m :: m in s.nodes && m != n ==> t.nodes[m] == s.nodes[m])
    && n in t.nodes && t.nodes[n].id == n && |t.nodes[n].log| > 0
    && t.nodes[n].peers == s.nodes[n].peers
    && t.hist.counted.Keys == t.nodes.Keys
    && t.hist.epoch.Keys == t.nodes.Keys
    && t.hist.applied.Keys == t.nodes.Keys
  }

  lemma OnlyNodeShape(s: System, t: System, n: NodeId)
    requires Shape(s) && OnlyNode(s, t, n)
    ensures Shape(t)
  {
    assert PeersOf(s.nodes[n], s.nodes.Keys);
    forall m | m in t.nodes ensures |t.nodes[m].log| > 0 && t.nodes[m].id == m && PeersOf(t.nodes[m], t.nodes.Keys) {
      if m != n {
        assert t.nodes[m] == s.nodes[m];
      }
    }
  }

  ghost predicate IsVoteMsg(msg: Message) {
    msg.RequestVote? || msg.ResponseVote?
  }

  /** No vote message was added to the network. */
  ghost predicate NoVoteSent(s: System, t: System) {
    forall p: Packet :: p in t.net && IsVoteMsg(p.msg) ==> p in s.net && t.net[p] <= s.net[p]
  }

  ghost predicate SameElectionHistory(h: History, g: History) {
    g.votes == h.votes && g.candidacies == h.candidacies && g.counted == h.counted && g.elections == h.elections
  }

  /** The candidacy of a node that is a candidate afterwards is an old one. */
  ghost predicate NoNewCandidate(a: Raft, b: Raft)
    requires |a.log| > 0 && |b.log| > 0
  {
    b.role == Candidate ==>
      a.role == Candidate && a.term == b.term && a.votesCount == b.votesCount && End(a.log) == End(b.log)
  }

  /** Node n neither voted, nor counted a vote, nor entered a candidacy or an
      office; it may have left one. */
  ghost predicate Quiet(s: System, t: System, n: NodeId) {
    && OnlyNode(s, t, n)
    && SameElectionHistory(s.hist, t.hist)
    && NoVoteSent(s, t)
    && var a, b := s.nodes[n], t.nodes[n];
    && a.term <= b.term
    && (a.term == b.term && a.votedFor.Some? ==> b.votedFor.Some?)
    && NoNewCandidate(a, b)
    && (b.role == Leader ==> a.role == Leader && a.term == b.term)
  }

  /** Node n granted its vote to the sender of p. */
  ghost predicate Grant(s: System, t: System, n: NodeId, p: Packet) {
    && OnlyNode(s, t, n)
    && p in s.net && p.msg.RequestVote?
    && var a, b := s.nodes[n], t.nodes[n];
    && var q := Packet(n, p.src, ResponseVote(b.term));
    && a.term <= b.term == p.msg.term
    && (a.term == b.term ==> a.votedFor.None?)
    && b.votedFor.Some? && b.role != Leader
    && NoNewCandidate(a, b)
    && NoNewer(End(a.log), Position(p.msg.lastTerm, p.msg.lastIdx))
    && t.net == s.net - multiset{p} + multiset{q}
    && t.hist.votes == s.hist.votes[(b.term, n) := Ballot(p.src, End(a.log))]
    && t.hist.candidacies == s.hist.candidacies
    && t.hist.counted == s.hist.counted
    && t.hist.elections == s.hist.elections
  }

  /** Candidate n counted the vote in p. */
  ghost predicate Count(s: System, t: System, n: NodeId, p: Packet) {
    && OnlyNode(s, t, n)
    && p in s.net && p.msg.ResponseVote? && p.dst == n && n in s.hist.counted
    && CountsVote(s.nodes[n], p.msg)
    && (var a, b := s.nodes[n], t.nodes[n];
        && b.term == a.term && b.role == a.role && b.votedFor == a.votedFor && b.log == a.log
        && b.votesCount == a.votesCount + 1)
    && t.net == s.net - multiset{p}
    && t.hist.votes == s.hist.votes
    && t.hist.candidacies == s.hist.candidacies
    && t.hist.counted == s.hist.counted[n := s.hist.counted[n] + {p.src}]
    && t.hist.elections == s.hist.elections
  }

  /** Node n became a candidate of the next term. */
  ghost predicate Candidacy(s: System, t: System, n: NodeId) {
    && OnlyNode(s, t, n)
    && var a, b := s.nodes[n], t.nodes[n];
    && b.role == Candidate && b.term == a.term + 1 && b.votedFor.Some? && b.votesCount == 1 && b.log == a.log
    && (forall p: Packet :: p in t.net && p.msg.ResponseVote? ==> p in s.net && t.net[p] <= s.net[p])
    && (forall p: Packet :: p in t.net && p.msg.RequestVote? ==>
          p in s.net || (p.src == n && p.msg == RequestVote(b.term, LastIdx(b.log), LastTerm(b.log))))
    && t.hist.votes == s.hist.votes[(b.term, n) := Ballot(n, End(a.log))]
    && t.hist.candidacies == s.hist.candidacies[(b.term, n) := End(a.log)]
    && t.hist.counted == s.hist.counted[n := {n}]
    && t.hist.elections == s.hist.elections
  }

  /** Candidate n with a majority became leader. */
  ghost predicate Win(s: System, t: System, n: NodeId) {
    && OnlyNode(s, t, n) && n in s.hist.counted
    && var a, b := s.nodes[n], t.nodes[n];
    && a.role == Candidate && Majority(a, a.votesCount)
    && b.role == Leader && b.term == a.term && b.votedFor == a.votedFor
    && NoVoteSent(s, t)
    && t.hist.votes == s.hist.votes
    && t.hist.candidacies == s.hist.candidacies
    && t.hist.counted == s.hist.counted
    && t.hist.elections == s.hist.elections + {Election(a.term, n, s.hist.counted[n], End(a.log))}
  }

  // ------------------------------------------------- what growing history keeps

  ghost predicate HistoryGrows(h: History, g: History) {
    && (forall k :: k in h.votes ==> k in g.votes && g.votes[k] == h.votes[k])
    && (forall k :: k in h.candidacies ==> k in g.candidacies && g.candidacies[k] == h.candidacies[k])
  }

  lemma SameCandidate(s: System, t: System, m: NodeId)
    requires Running(s) && Running(t) && m in s.nodes && m in t.nodes && CandidateOk(s, m)
    requires NoNewCandidate(s.nodes[m], t.nodes[m]) && t.nodes[m].role == Candidate
    requires HistoryGrows(s.hist, t.hist) && s.nodes.Keys == t.nodes.Keys
    requires t.hist.counted[m] == s.hist.counted[m]
    requires forall e :: e in t.hist.elections ==> e in s.hist.elections || e.leader != m
    ensures CandidateOk(t, m)
  {
  }

  lemma ElectionStays(s: System, t: System, e: Election)
    requires ElectionOk(s, e) && t.nodes.Keys == s.nodes.Keys && HistoryGrows(s.hist, t.hist)
    requires s.nodes[e.leader].term <= t.nodes[e.leader].term
    ensures ElectionOk(t, e)
  {
  }

  /** An answer still in flight that was not counted meanwhile. */
  lemma SameResponse(s: System, t: System, p: Packet)
    requires Running(s) && Running(t) && p.msg.ResponseVote? && ResponseOk(s, p)
    requires t.nodes.Keys == s.nodes.Keys && HistoryGrows(s.hist, t.hist)
    requires p in t.net && t.net[p] <= s.net[p]
    requires CountsVote(t.nodes[p.dst], p.msg) ==>
               CountsVote(s.nodes[p.dst], p.msg) && p.src !in t.hist.counted[p.dst] - s.hist.counted[p.dst]
    ensures ResponseOk(t, p)
  {
  }

  ghost predicate NoNewLeader(a: Raft, b: Raft) {
    a.term <= b.term && (b.role == Leader ==> a.role == Leader && a.term == b.term)
  }

  lemma ElectionsStay(s: System, t: System, n: NodeId)
    requires ElectionsOk(s) && OnlyNode(s, t, n) && HistoryGrows(s.hist, t.hist)
    requires t.hist.elections == s.hist.elections
    requires NoNewLeader(s.nodes[n], t.nodes[n])
    ensures ElectionsOk(t)
  {
    forall e | e in t.hist.elections ensures ElectionOk(t, e) {
      assert ElectionOk(s, e);
      assert NoNewLeader(s.nodes[e.leader], t.nodes[e.leader]);
      ElectionStays(s, t, e);
    }
    forall m | m in t.nodes && t.nodes[m].role == Leader ensures Elected(t.hist, t.nodes[m].term, m) {
      assert NoNewLeader(s.nodes[m], t.nodes[m]);
      assert Elected(s.hist, s.nodes[m].term, m);
    }
  }

  // -------------------------------------------------- quiet events keep it all

  lemma QuietVotes(s: System, t: System, n: NodeId)
    requires Running(s) && VotesRemembered(s) && Quiet(s, t, n)
    ensures VotesRemembered(t)
  {
    forall k | k in t.hist.votes
      ensures k.1 in t.nodes && k.0 <= t.nodes[k.1].term && (k.0 == t.nodes[k.1].term ==> t.nodes[k.1].votedFor.Some?)
    {
      assert k in s.hist.votes;
    }
  }

  lemma QuietBallots(s: System, t: System, n: NodeId)
    requires Running(s) && BallotsFair(s) && Quiet(s, t, n)
    ensures BallotsFair(t)
  {
    forall k | k in t.hist.candidacies ensures k.1 in t.nodes && k.0 <= t.nodes[k.1].term {
      assert k in s.hist.candidacies;
    }
  }

  lemma QuietCandidates(s: System, t: System, n: NodeId)
    requires Running(s) && Running(t) && CandidatesOk(s) && Quiet(s, t, n)
    ensures CandidatesOk(t)
  {
    forall m | m in t.nodes && t.nodes[m].role == Candidate ensures CandidateOk(t, m) {
      SameCandidate(s, t, m);
    }
  }

  lemma QuietTraffic(s: System, t: System, n: NodeId)
    requires Running(s) && Running(t) && VoteTrafficOk(s) && Quiet(s, t, n)
    ensures VoteTrafficOk(t)
  {
    forall p | p in t.net && p.msg.RequestVote? ensures RequestOk(t, p) {
      assert RequestOk(s, p);
    }
    forall p | p in t.net && p.msg.ResponseVote? ensures ResponseOk(t, p) {
      assert ResponseOk(s, p);
    }
  }

  lemma QuietKeeps(s: System, t: System, n: NodeId)
    requires ElectionInv(s) && Quiet(s, t, n)
    ensures ElectionInv(t)
  {
    OnlyNodeShape(s, t, n);
    QuietVotes(s, t, n);
    QuietBallots(s, t, n);
    QuietCandidates(s, t, n);
    QuietTraffic(s, t, n);
    ElectionsStay(s, t, n);
  }

  // ------------------------------------------------------------ granting a vote

  lemma GrantIsNew(s: System, t: System, n: NodeId, p: Packet)
    requires VotesRemembered(s) && Grant(s, t, n, p)
    ensures (p.msg.term, n) !in s.hist.votes
  {
  }

  lemma GrantGrows(s: System, t: System, n: NodeId, p: Packet)
    requires VotesRemembered(s) && Grant(s, t, n, p)
    ensures HistoryGrows(s.hist, t.hist) && NoNewLeader(s.nodes[n], t.nodes[n])
  {
    GrantIsNew(s, t, n, p);
  }

  lemma GrantVotes(s: System, t: System, n: NodeId, p: Packet)
    requires Running(s) && VotesRemembered(s) && Grant(s, t, n, p)
    ensures VotesRemembered(t)
  {
    forall k | k in t.hist.votes
      ensures k.1 in t.nodes && k.0 <= t.nodes[k.1].term && (k.0 == t.nodes[k.1].term ==> t.nodes[k.1].votedFor.Some?)
    {
      assert k in s.hist.votes || k == (p.msg.term, n);
    }
  }

  lemma GrantBallots(s: System, t: System, n: NodeId, p: Packet)
    requires Running(s) && BallotsFair(s) && VoteTrafficOk(s) && Grant(s, t, n, p)
    ensures BallotsFair(t)
  {
    assert RequestOk(s, p);
    forall k | k in t.hist.candidacies ensures k.1 in t.nodes && k.0 <= t.nodes[k.1].term {
      assert k in s.hist.candidacies;
    }
    forall k | k in t.hist.votes
      ensures var key := (k.0, t.hist.votes[k].candidate);
              key in t.hist.candidacies && NoNewer(t.hist.votes[k].position, t.hist.candidacies[key])
    {
      assert k in s.hist.votes || k == (p.msg.term, n);
    }
  }

  lemma GrantCandidates(s: System, t: System, n: NodeId, p: Packet)
    requires Running(s) && Running(t) && VotesRemembered(s) && CandidatesOk(s) && Grant(s, t, n, p)
    ensures CandidatesOk(t)
  {
    GrantGrows(s, t, n, p);
    forall m | m in t.nodes && t.nodes[m].role == Candidate ensures CandidateOk(t, m) {
      SameCandidate(s, t, m);
    }
  }

  lemma NoVoteNoAnswer(s: System, p: Packet)
    requires Running(s) && VoteTrafficOk(s) && p.msg.ResponseVote? && (p.msg.term, p.src) !in s.hist.votes
    ensures p !in s.net
  {
  }

  lemma GrantAnswer(s: System, t: System, n: NodeId, p: Packet)
    requires Running(s) && Running(t) && VotesRemembered(s) && BallotsFair(s) && CandidatesOk(s) && VoteTrafficOk(s)
    requires Grant(s, t, n, p)
    ensures ResponseOk(t, Packet(n, p.src, ResponseVote(p.msg.term)))
  {
    var answer := Packet(n, p.src, ResponseVote(p.msg.term));
    GrantIsNew(s, t, n, p);
    assert RequestOk(s, p);
    NoVoteNoAnswer(s, answer);
    if CountsVote(t.nodes[p.src], answer.msg) {
      assert CandidateOk(s, p.src);
    }
  }

  lemma GrantTraffic(s: System, t: System, n: NodeId, p: Packet)
    requires Running(s) && Running(t) && VotesRemembered(s) && BallotsFair(s) && CandidatesOk(s) && VoteTrafficOk(s)
    requires Grant(s, t, n, p)
    ensures VoteTrafficOk(t)
  {
    GrantAnswer(s, t, n, p);
    forall q | q in t.net && q.msg.RequestVote? ensures RequestOk(t, q) {
      assert RequestOk(s, q);
    }
    forall q | q in t.net && q.msg.ResponseVote? && q != Packet(n, p.src, ResponseVote(p.msg.term)) ensures ResponseOk(t, q) {
      GrantResponse(s, t, n, p, q);
    }
  }

  lemma GrantResponse(s: System, t: System, n: NodeId, p: Packet, q: Packet)
    requires Running(s) && Running(t) && VotesRemembered(s) && VoteTrafficOk(s) && Grant(s, t, n, p)
    requires q in t.net && q.msg.ResponseVote? && q != Packet(n, p.src, ResponseVote(p.msg.term))
    ensures ResponseOk(t, q)
  {
    GrantGrows(s, t, n, p);
    assert q in s.net && ResponseOk(s, q);
    SameResponse(s, t, q);
  }

  lemma GrantKeeps(s: System, t: System, n: NodeId, p: Packet)
    requires ElectionInv(s) && Grant(s, t, n, p)
    ensures ElectionInv(t)
  {
    OnlyNodeShape(s, t, n);
    GrantVotes(s, t, n, p);
    GrantBallots(s, t, n, p);
    GrantCandidates(s, t, n, p);
    GrantTraffic(s, t, n, p);
    GrantGrows(s, t, n, p);
    ElectionsStay(s, t, n);
  }

  // ------------------------------------------------------------ counting a vote

  lemma CountedCandidate(s: System, t: System, n: NodeId, p: Packet)
    requires Running(s) && Running(t) && CandidatesOk(s) && VoteTrafficOk(s) && VotesRemembered(s) && Count(s, t, n, p)
    ensures CandidateOk(t, n)
  {
    assert ResponseOk(s, p) && CandidateOk(s, n);
    assert p.src in s.nodes by {
      assert (p.msg.term, p.src) in s.hist.votes;
    }
    OneMoreVote(s, t, n, p.src);
  }

  lemma OneMoreVote(s: System, t: System, n: NodeId, voter: NodeId)
    requires Running(s) && Running(t) && n in s.nodes && n in t.nodes && CandidateOk(s, n)
    requires voter in s.nodes && voter !in s.hist.counted[n] && t.nodes.Keys == s.nodes.Keys
    requires (s.nodes[n].term, voter) in s.hist.votes && s.hist.votes[(s.nodes[n].term, voter)].candidate == n
    requires t.nodes[n].term == s.nodes[n].term && t.nodes[n].log == s.nodes[n].log
    requires t.nodes[n].votesCount == s.nodes[n].votesCount + 1 && t.hist.counted[n] == s.hist.counted[n] + {voter}
    requires t.hist.votes == s.hist.votes && t.hist.candidacies == s.hist.candidacies && t.hist.elections == s.hist.elections
    ensures CandidateOk(t, n)
  {
  }

  lemma CountCandidates(s: System, t: System, n: NodeId, p: Packet)
    requires Running(s) && Running(t) && CandidatesOk(s) && VoteTrafficOk(s) && VotesRemembered(s) && Count(s, t, n, p)
    ensures CandidatesOk(t)
  {
    forall m | m in t.nodes && t.nodes[m].role == Candidate ensures CandidateOk(t, m) {
      if m == n {
        CountedCandidate(s, t, n, p);
      } else {
        OtherCandidate(s, t, n, p, m);
      }
    }
  }

  lemma OtherCandidate(s: System, t: System, n: NodeId, p: Packet, m: NodeId)
    requires Running(s) && Running(t) && CandidatesOk(s) && Count(s, t, n, p) && m in t.nodes && m != n && t.nodes[m].role == Candidate
    ensures CandidateOk(t, m)
  {
    SameCandidate(s, t, m);
  }

  lemma CountTraffic(s: System, t: System, n: NodeId, p: Packet)
    requires Running(s) && Running(t) && VoteTrafficOk(s) && Count(s, t, n, p)
    ensures VoteTrafficOk(t)
  {
    forall q | q in t.net && q.msg.RequestVote? ensures RequestOk(t, q) {
      assert RequestOk(s, q);
    }
    forall q | q in t.net && q.msg.ResponseVote? ensures ResponseOk(t, q) {
      CountResponse(s, t, n, p, q);
    }
  }

  lemma CountResponse(s: System, t: System, n: NodeId, p: Packet, q: Packet)
    requires Running(s) && Running(t) && VoteTrafficOk(s) && Count(s, t, n, p) && q in t.net && q.msg.ResponseVote?
    ensures ResponseOk(t, q)
  {
    assert ResponseOk(s, p) && ResponseOk(s, q);
    assert q != p;
    SameResponse(s, t, q);
  }

  lemma CountRest(s: System, t: System, n: NodeId, p: Packet)
    requires Running(s) && VotesRemembered(s) && BallotsFair(s) && Count(s, t, n, p)
    ensures VotesRemembered(t) && BallotsFair(t)
  {
    forall k | k in t.hist.votes
      ensures k.1 in t.nodes && k.0 <= t.nodes[k.1].term && (k.0 == t.nodes[k.1].term ==> t.nodes[k.1].votedFor.Some?)
    {
      assert k in s.hist.votes;
    }
    forall k | k in t.hist.candidacies ensures k.1 in t.nodes && k.0 <= t.nodes[k.1].term {
      assert k in s.hist.candidacies;
    }
    assert t.hist.votes == s.hist.votes && t.hist.candidacies == s.hist.candidacies;
  }

  lemma CountKeeps(s: System, t: System, n: NodeId, p: Packet)
    requires ElectionInv(s) && Count(s, t, n, p)
    ensures ElectionInv(t)
  {
    OnlyNodeShape(s, t, n);
    CountRest(s, t, n, p);
    CountCandidates(s, t, n, p);
    CountTraffic(s, t, n, p);
    ElectionsStay(s, t, n);
  }

  // ------------------------------------------------------ becoming a candidate

  lemma CandidacyIsNew(s: System, t: System, n: NodeId)
    requires VotesRemembered(s) && BallotsFair(s) && Candidacy(s, t, n)
    ensures (t.nodes[n].term, n) !in s.hist.votes && (t.nodes[n].term, n) !in s.hist.candidacies
  {
  }

  lemma CandidacyGrows(s: System, t: System, n: NodeId)
    requires VotesRemembered(s) && BallotsFair(s) && Candidacy(s, t, n)
    ensures HistoryGrows(s.hist, t.hist) && NoNewLeader(s.nodes[n], t.nodes[n])
  {
    CandidacyIsNew(s, t, n);
  }

  lemma CandidacyVotes(s: System, t: System, n: NodeId)
    requires Running(s) && VotesRemembered(s) && Candidacy(s, t, n)
    ensures VotesRemembered(t)
  {
    forall k | k in t.hist.votes
      ensures k.1 in t.nodes && k.0 <= t.nodes[k.1].term && (k.0 == t.nodes[k.1].term ==> t.nodes[k.1].votedFor.Some?)
    {
      assert k in s.hist.votes || k == (t.nodes[n].term, n);
    }
  }

  lemma CandidacyBallots(s: System, t: System, n: NodeId)
    requires Running(s) && VotesRemembered(s) && BallotsFair(s) && Candidacy(s, t, n)
    ensures BallotsFair(t)
  {
    CandidacyIsNew(s, t, n);
    forall k | k in t.hist.candidacies ensures k.1 in t.nodes && k.0 <= t.nodes[k.1].term {
      assert k in s.hist.candidacies || k == (t.nodes[n].term, n);
    }
    BallotsStayFair(s.hist, t.hist, n, t.nodes[n].term, End(s.nodes[n].log));
  }

  lemma BallotsStayFair(h: History, g: History, n: NodeId, term: nat, end: Position)
    requires g.votes == h.votes[(term, n) := Ballot(n, end)] && g.candidacies == h.candidacies[(term, n) := end]
    requires (term, n) !in h.candidacies
    requires forall k :: k in h.votes ==>
               var key := (k.0, h.votes[k].candidate);
               key in h.candidacies && NoNewer(h.votes[k].position, h.candidacies[key])
    ensures forall k :: k in g.votes ==>
              var key := (k.0, g.votes[k].candidate);
              key in g.candidacies && NoNewer(g.votes[k].position, g.candidacies[key])
  {
    forall k | k in g.votes
      ensures var key := (k.0, g.votes[k].candidate);
              key in g.candidacies && NoNewer(g.votes[k].position, g.candidacies[key])
    {
      assert k in h.votes || k == (term, n);
    }
  }

  lemma NotElectedYet(s: System, n: NodeId, term: nat)
    requires ElectionsOk(s) && n in s.nodes && s.nodes[n].term < term
    ensures !Elected(s.hist, term, n)
  {
    forall e | e in s.hist.elections ensures !(e.term == term && e.leader == n) {
      assert ElectionOk(s, e);
    }
  }

  lemma NewCandidate(s: System, t: System, n: NodeId)
    requires Running(s) && Running(t) && ElectionsOk(s) && Candidacy(s, t, n)
    ensures CandidateOk(t, n)
  {
    NotElectedYet(s, n, t.nodes[n].term);
    StandsAlone(t, n);
  }

  lemma StandsAlone(t: System, n: NodeId)
    requires Running(t) && n in t.nodes && t.nodes[n].votesCount == 1 && t.hist.counted[n] == {n}
    requires var key := (t.nodes[n].term, n);
             && key in t.hist.candidacies && t.hist.candidacies[key] == End(t.nodes[n].log)
             && key in t.hist.votes && t.hist.votes[key].candidate == n
    requires !Elected(t.hist, t.nodes[n].term, n)
    ensures CandidateOk(t, n)
  {
  }

  lemma CandidacyCandidates(s: System, t: System, n: NodeId)
    requires Running(s) && Running(t) && VotesRemembered(s) && BallotsFair(s) && CandidatesOk(s) && ElectionsOk(s)
    requires Candidacy(s, t, n)
    ensures CandidatesOk(t)
  {
    NewCandidate(s, t, n);
    forall m | m in t.nodes && t.nodes[m].role == Candidate ensures CandidateOk(t, m) {
      if m != n {
        CandidacyOfOther(s, t, n, m);
      }
    }
  }

  lemma CandidacyOfOther(s: System, t: System, n: NodeId, m: NodeId)
    requires Running(s) && Running(t) && VotesRemembered(s) && BallotsFair(s) && Candidacy(s, t, n)
    requires m in s.nodes && m != n && s.nodes[m].role == Candidate && CandidateOk(s, m)
    ensures CandidateOk(t, m)
  {
    CandidacyGrows(s, t, n);
    SameCandidate(s, t, m);
  }

  lemma CandidacyTraffic(s: System, t: System, n: NodeId)
    requires Running(s) && Running(t) && VotesRemembered(s) && BallotsFair(s) && VoteTrafficOk(s)
    requires Candidacy(s, t, n)
    ensures VoteTrafficOk(t)
  {
    forall p | p in t.net && p.msg.RequestVote? ensures RequestOk(t, p) {
      CandidacyRequest(s, t, n, p);
    }
    forall p | p in t.net && p.msg.ResponseVote? ensures ResponseOk(t, p) {
      CandidacyResponse(s, t, n, p);
    }
  }

  lemma CandidacyRequest(s: System, t: System, n: NodeId, p: Packet)
    requires Running(s) && VotesRemembered(s) && BallotsFair(s) && VoteTrafficOk(s)
    requires Candidacy(s, t, n) && p in t.net && p.msg.RequestVote?
    ensures RequestOk(t, p)
  {
    CandidacyIsNew(s, t, n);
    if p in s.net {
      assert RequestOk(s, p);
    }
  }

  lemma CandidacyResponse(s: System, t: System, n: NodeId, p: Packet)
    requires Running(s) && Running(t) && VotesRemembered(s) && BallotsFair(s) && VoteTrafficOk(s)
    requires Candidacy(s, t, n) && p in t.net && p.msg.ResponseVote?
    ensures ResponseOk(t, p)
  {
    CandidacyIsNew(s, t, n);
    assert ResponseOk(s, p);
    assert (p.msg.term, s.hist.votes[(p.msg.term, p.src)].candidate) in s.hist.candidacies;
  }

  lemma CandidacyKeeps(s: System, t: System, n: NodeId)
    requires ElectionInv(s) && Candidacy(s, t, n)
    ensures ElectionInv(t)
  {
    OnlyNodeShape(s, t, n);
    CandidacyVotes(s, t, n);
    CandidacyBallots(s, t, n);
    CandidacyCandidates(s, t, n);
    CandidacyTraffic(s, t, n);
    CandidacyGrows(s, t, n);
    ElectionsStay(s, t, n);
  }

  // -------------------------------------------------------- winning an election

  lemma WinRest(s: System, t: System, n: NodeId)
    requires Running(s) && VotesRemembered(s) && BallotsFair(s) && Win(s, t, n)
    ensures VotesRemembered(t) && BallotsFair(t)
  {
  }

  lemma WinCandidates(s: System, t: System, n: NodeId)
    requires Running(s) && Running(t) && CandidatesOk(s) && Win(s, t, n)
    ensures CandidatesOk(t)
  {
    forall m | m in t.nodes && t.nodes[m].role == Candidate ensures CandidateOk(t, m) {
      SameCandidate(s, t, m);
    }
  }

  lemma WinTraffic(s: System, t: System, n: NodeId)
    requires Running(s) && Running(t) && VoteTrafficOk(s) && Win(s, t, n)
    ensures VoteTrafficOk(t)
  {
    forall p | p in t.net && p.msg.RequestVote? ensures RequestOk(t, p) {
      assert RequestOk(s, p);
    }
    forall p | p in t.net && p.msg.ResponseVote? ensures ResponseOk(t, p) {
      assert ResponseOk(s, p);
    }
  }

  lemma WonElection(s: System, t: System, n: NodeId)
    requires Shape(s) && CandidatesOk(s) && Win(s, t, n)
    ensures ElectionOk(t, Election(s.nodes[n].term, n, s.hist.counted[n], End(s.nodes[n].log)))
    ensures !Elected(s.hist, s.nodes[n].term, n)
  {
    assert CandidateOk(s, n);
    assert PeersOf(s.nodes[n], s.nodes.Keys);
    assert |s.nodes[n].peers| + 1 == |s.nodes.Keys|;
  }

  lemma WinOffices(s: System, t: System, n: NodeId)
    requires Running(s) && ElectionsOk(s) && Win(s, t, n)
    ensures forall m :: m in t.nodes && t.nodes[m].role == Leader ==> Elected(t.hist, t.nodes[m].term, m)
  {
    forall m | m in t.nodes && t.nodes[m].role == Leader ensures Elected(t.hist, t.nodes[m].term, m) {
      if m == n {
        assert Election(s.nodes[n].term, n, s.hist.counted[n], End(s.nodes[n].log)) in t.hist.elections;
      } else {
        assert t.nodes[m] == s.nodes[m];
        var e :| e in s.hist.elections && e.term == s.nodes[m].term && e.leader == m;
        assert e in t.hist.elections;
      }
    }
  }

  lemma WinValid(s: System, t: System, n: NodeId)
    requires Shape(s) && CandidatesOk(s) && ElectionsOk(s) && Win(s, t, n)
    ensures forall e :: e in t.hist.elections ==> ElectionOk(t, e)
  {
    WonElection(s, t, n);
    EarlierElections(s, t, n);
  }

  lemma EarlierElections(s: System, t: System, n: NodeId)
    requires Running(s) && ElectionsOk(s) && Win(s, t, n)
    ensures forall e :: e in s.hist.elections ==> ElectionOk(t, e)
  {
    forall e | e in s.hist.elections ensures ElectionOk(t, e) {
      assert ElectionOk(s, e);
      ElectionStays(s, t, e);
    }
  }

  lemma WinOnce(s: System, t: System, n: NodeId)
    requires Shape(s) && CandidatesOk(s) && ElectionsOk(s) && Win(s, t, n)
    ensures forall e, f :: e in t.hist.elections && f in t.hist.elections && e.term == f.term && e.leader == f.leader ==> e == f
  {
    WonElection(s, t, n);
    var won := Election(s.nodes[n].term, n, s.hist.counted[n], End(s.nodes[n].log));
    WonIsNew(s, n, won);
    OnceMore(s.hist.elections, t.hist.elections, won);
  }

  lemma WonIsNew(s: System, n: NodeId, won: Election)
    requires Shape(s) && CandidatesOk(s) && n in s.nodes && s.nodes[n].role == Candidate
    requires won.term == s.nodes[n].term && won.leader == n
    ensures forall e :: e in s.hist.elections ==> e.term != won.term || e.leader != won.leader
  {
    assert CandidateOk(s, n);
  }

  lemma OnceMore(before: set<Election>, after: set<Election>, won: Election)
    requires forall e, f :: e in before && f in before && e.term == f.term && e.leader == f.leader ==> e == f
    requires after == before + {won} && forall e :: e in before ==> e.term != won.term || e.leader != won.leader
    ensures forall e, f :: e in after && f in after && e.term == f.term && e.leader == f.leader ==> e == f
  {
  }

  lemma WinKeeps(s: System, t: System, n: NodeId)
    requires ElectionInv(s) && Win(s, t, n)
    ensures ElectionInv(t)
  {
    OnlyNodeShape(s, t, n);
    WinRest(s, t, n);
    WinCandidates(s, t, n);
    WinTraffic(s, t, n);
    WinOffices(s, t, n);
    WinValid(s, t, n);
    WinOnce(s, t, n);
  }

  // ---------------------------------------------- every step is such an event

  ghost predicate QuietNode(a: Raft, b: Raft) {
    && |a.log| > 0 && |b.log| > 0 && b.id == a.id && b.peers == a.peers
    && a.term <= b.term
    && (a.term == b.term && a.votedFor.Some? ==> b.votedFor.Some?)
    && NoNewCandidate(a, b)
    && (b.role == Leader ==> a.role == Leader && a.term == b.term)
  }

  lemma AppendIsQuiet(a: Raft, src: NodeId, msg: Message)
    requires |a.log| > 0 && IsAppend(msg)
    ensures QuietNode(a, OnAppendEntries(a, src, msg).0)
    ensures forall p :: p in OnAppendEntries(a, src, msg).1 ==> !IsVoteMsg(p.msg)
  {
  }

  lemma AppendHistory(h: History, a: Raft, src: NodeId, msg: Message)
    requires |a.log| > 0 && IsAppend(msg) && a.id in h.counted && a.id in h.epoch
    ensures QuietHistory(h, RecordReceive(h, a, src, msg))
  {
  }

  lemma RefusalIsQuiet(a: Raft, src: NodeId, msg: Message)
    requires |a.log| > 0 && msg.RequestVote? && !GrantsVote(AdoptTerm(a, msg.term), msg)
    ensures QuietNode(a, OnRequestVote(a, src, msg).0) && OnRequestVote(a, src, msg).1 == multiset{}
  {
  }

  lemma SendIsQuiet(a: Raft, peer: NodeId, batch: nat)
    requires |a.log| > 0 && peer in a.nextIndex
    ensures QuietNode(a, SendAppend(a, peer, batch).0) && !IsVoteMsg(SendAppend(a, peer, batch).1.msg)
  {
  }

  ghost predicate QuietHistory(h: History, g: History) {
    && SameElectionHistory(h, g)
    && g.epoch.Keys == h.epoch.Keys && g.applied.Keys == h.applied.Keys
  }

  /** A step that changes one node quietly and sends no vote message. */
  lemma QuietStep(s: System, n: NodeId, b: Raft, taken: multiset<Packet>, sent: multiset<Packet>, h: History)
    requires ElectionInv(s) && n in s.nodes
    requires QuietNode(s.nodes[n], b) && QuietHistory(s.hist, h)
    requires forall p :: p in sent ==> !IsVoteMsg(p.msg)
    ensures ElectionInv(System(s.nodes[n := b], s.net - taken + sent, h))
  {
    var t := System(s.nodes[n := b], s.net - taken + sent, h);
    assert NoVoteSent(s, t);
    assert Quiet(s, t, n);
    QuietKeeps(s, t, n);
  }

  lemma RefusedRequestKeeps(s: System, p: Packet)
    requires ElectionInv(s) && p in s.net && p.dst in s.nodes && p.msg.RequestVote?
    requires !GrantsVote(AdoptTerm(s.nodes[p.dst], p.msg.term), p.msg)
    ensures ElectionInv(AfterDelivery(s, p))
  {
    RefusalIsQuiet(s.nodes[p.dst], p.src, p.msg);
    QuietStep(s, p.dst, OnRequestVote(s.nodes[p.dst], p.src, p.msg).0, multiset{p}, multiset{}, s.hist);
  }

  lemma GrantedIs(s: System, p: Packet)
    requires Shape(s) && p in s.net && p.dst in s.nodes && p.msg.RequestVote?
    requires GrantsVote(AdoptTerm(s.nodes[p.dst], p.msg.term), p.msg)
    ensures Grant(s, AfterDelivery(s, p), p.dst, p)
  {
  }

  lemma GrantedRequestKeeps(s: System, p: Packet)
    requires ElectionInv(s) && p in s.net && p.dst in s.nodes && p.msg.RequestVote?
    requires GrantsVote(AdoptTerm(s.nodes[p.dst], p.msg.term), p.msg)
    ensures ElectionInv(AfterDelivery(s, p))
  {
    GrantedIs(s, p);
    GrantKeeps(s, AfterDelivery(s, p), p.dst, p);
  }

  lemma BecomeLeaderFacts(a: Raft)
    requires |a.log| > 0
    ensures var b := BecomeLeader(a);
            && b.id == a.id && b.peers == a.peers && b.term == a.term && b.votedFor == a.votedFor && b.role == Leader
            && b.log == a.log + [Entry(NoOp, LastIdx(a.log) + 1, a.term)]
  {
  }

  lemma WinEvent(s: System, n: NodeId, b: Raft, h: History)
    requires Shape(s) && n in s.nodes
    requires var a := s.nodes[n];
             && a.role == Candidate && Majority(a, a.votesCount)
             && |b.log| > 0 && b.id == a.id && b.peers == a.peers && b.role == Leader
             && b.term == a.term && b.votedFor == a.votedFor
             && h.votes == s.hist.votes && h.candidacies == s.hist.candidacies && h.counted == s.hist.counted
             && h.elections == s.hist.elections + {Election(a.term, n, s.hist.counted[n], End(a.log))}
    requires h.epoch.Keys == s.nodes.Keys && h.applied.Keys == s.nodes.Keys
    ensures Win(s, System(s.nodes[n := b], s.net, h), n)
  {
  }

  lemma WinStep(s: System, n: NodeId)
    requires ElectionInv(s) && n in s.nodes
    requires s.nodes[n].role == Candidate && Majority(s.nodes[n], s.nodes[n].votesCount)
    ensures ElectionInv(AfterWin(s, n))
  {
    WonIs(s, n);
    WinKeeps(s, AfterWin(s, n), n);
  }

  lemma WonIs(s: System, n: NodeId)
    requires Shape(s) && n in s.nodes
    requires s.nodes[n].role == Candidate && Majority(s.nodes[n], s.nodes[n].votesCount)
    ensures Win(s, AfterWin(s, n), n)
  {
    var a := s.nodes[n];
    BecomeLeaderFacts(a);
    var h := RecordElection(s.hist, n, a, BecomeLeader(a), s.hist.counted[n]);
    assert h.epoch.Keys == s.nodes.Keys;
    WinEvent(s, n, BecomeLeader(a), h);
  }

  function AfterWin(s: System, n: NodeId): System
    requires n in s.nodes && |s.nodes[n].log| > 0 && n in s.hist.counted
  {
    var b := BecomeLeader(s.nodes[n]);
    System(s.nodes[n := b], s.net, RecordElection(s.hist, n, s.nodes[n], b, s.hist.counted[n]))
  }

  function AfterCount(s: System, p: Packet): System
    requires p.dst in s.nodes && p.dst in s.hist.counted
  {
    var a := s.nodes[p.dst];
    System(s.nodes[p.dst := a.(votesCount := a.votesCount + 1)], s.net - multiset{p},
           s.hist.(counted := s.hist.counted[p.dst := s.hist.counted[p.dst] + {p.src}]))
  }

  function AfterCandidacy(s: System, n: NodeId): System
    requires n in s.nodes && |s.nodes[n].log| > 0
  {
    var a := s.nodes[n];
    var c := StartCandidacy(a);
    System(s.nodes[n := c],
           s.net + Broadcast(c, RequestVote(c.term, LastIdx(c.log), LastTerm(c.log))),
           s.hist.(votes := s.hist.votes[(c.term, n) := Ballot(n, End(a.log))],
                   candidacies := s.hist.candidacies[(c.term, n) := End(a.log)],
                   counted := s.hist.counted[n := {n}]))
  }

  lemma CountedIs(s: System, p: Packet)
    requires Shape(s) && p in s.net && p.dst in s.nodes && p.msg.ResponseVote? && CountsVote(s.nodes[p.dst], p.msg)
    ensures Count(s, AfterCount(s, p), p.dst, p)
  {
  }

  lemma CountStep(s: System, p: Packet)
    requires ElectionInv(s) && p in s.net && p.dst in s.nodes && p.msg.ResponseVote?
    requires CountsVote(s.nodes[p.dst], p.msg)
    ensures ElectionInv(AfterCount(s, p))
  {
    CountedIs(s, p);
    CountKeeps(s, AfterCount(s, p), p.dst, p);
  }

  /** Delivering a counted vote is counting it, then winning if that makes a
      majority. */
  lemma CountThenWin(s: System, p: Packet)
    requires Shape(s) && p.dst in s.nodes && p.msg.ResponseVote? && CountsVote(s.nodes[p.dst], p.msg)
    ensures var u := AfterCount(s, p);
            var b := u.nodes[p.dst];
            AfterDelivery(s, p) == if Majority(b, b.votesCount) then AfterWin(u, p.dst) else u
  {
    var a, u := s.nodes[p.dst], AfterCount(s, p);
    var b := u.nodes[p.dst];
    assert OnResponseVote(a, p.msg) == ElectIfMajority(b);
    assert s.net - multiset{p} + multiset{} == s.net - multiset{p};
    if Majority(b, b.votesCount) {
      assert s.nodes[p.dst := BecomeLeader(b)] == u.nodes[p.dst := BecomeLeader(b)];
    }
  }

  lemma CountedResponseKeeps(s: System, p: Packet)
    requires ElectionInv(s) && p in s.net && p.dst in s.nodes && p.msg.ResponseVote?
    requires CountsVote(s.nodes[p.dst], p.msg)
    ensures ElectionInv(AfterDelivery(s, p))
  {
    var u := AfterCount(s, p);
    CountStep(s, p);
    CountThenWin(s, p);
    if Majority(u.nodes[p.dst], u.nodes[p.dst].votesCount) {
      WinStep(u, p.dst);
    }
  }

  lemma IgnoredResponseKeeps(s: System, p: Packet)
    requires ElectionInv(s) && p in s.net && p.dst in s.nodes && p.msg.ResponseVote?
    requires !CountsVote(s.nodes[p.dst], p.msg)
    ensures ElectionInv(AfterDelivery(s, p))
  {
    QuietStep(s, p.dst, s.nodes[p.dst], multiset{p}, multiset{}, s.hist);
    assert OnResponseVote(s.nodes[p.dst], p.msg) == s.nodes[p.dst];
  }

  lemma CandidacyStep(s: System, n: NodeId)
    requires ElectionInv(s) && n in s.nodes && s.nodes[n].role != Leader
    ensures ElectionInv(AfterCandidacy(s, n))
  {
    StandsUp(s, n);
    CandidacyKeeps(s, AfterCandidacy(s, n), n);
  }

  lemma StandsUp(s: System, n: NodeId)
    requires Running(s) && n in s.nodes && s.nodes[n].role != Leader
    ensures Candidacy(s, AfterCandidacy(s, n), n)
  {
  }

  lemma CandidacyThenWin(s: System, n: NodeId)
    requires Shape(s) && n in s.nodes
    ensures var u := AfterCandidacy(s, n);
            AfterTimeout(s, n) == if Majority(u.nodes[n], 1) then AfterWin(u, n) else u
  {
    var u := AfterCandidacy(s, n);
    var c := u.nodes[n];
    assert c == StartCandidacy(s.nodes[n]);
    if Majority(c, 1) {
      assert s.nodes[n := BecomeLeader(c)] == u.nodes[n := BecomeLeader(c)];
    }
  }

  lemma TimeoutKeeps(s: System, n: NodeId)
    requires ElectionInv(s) && n in s.nodes && s.nodes[n].role != Leader
    ensures ElectionInv(AfterTimeout(s, n))
  {
    CandidacyStep(s, n);
    CandidacyThenWin(s, n);
    if Majority(AfterCandidacy(s, n).nodes[n], 1) {
      WinStep(AfterCandidacy(s, n), n);
    }
  }

  lemma AppendKeeps(s: System, p: Packet)
    requires ElectionInv(s) && p in s.net && p.dst in s.nodes && IsAppend(p.msg)
    ensures ElectionInv(AfterDelivery(s, p))
  {
    var (b, out) := OnAppendEntries(s.nodes[p.dst], p.src, p.msg);
    var h := RecordReceive(s.hist, s.nodes[p.dst], p.src, p.msg);
    AppendIsQuiet(s.nodes[p.dst], p.src, p.msg);
    AppendHistory(s.hist, s.nodes[p.dst], p.src, p.msg);
    QuietStep(s, p.dst, b, multiset{p}, out, h);
    assert AfterDelivery(s, p) == System(s.nodes[p.dst := b], s.net - multiset{p} + out, h);
  }

  lemma NextNodeIdxKeeps(s: System, p: Packet)
    requires ElectionInv(s) && p in s.net && p.dst in s.nodes && p.msg.NextNodeIdx?
    ensures ElectionInv(AfterDelivery(s, p))
  {
    var b := OnNextNodeIdx(s.nodes[p.dst], p.src, p.msg);
    NextNodeIdxIsQuiet(s.nodes[p.dst], p.src, p.msg);
    QuietStep(s, p.dst, b, multiset{p}, multiset{}, s.hist);
    NextNodeIdxIs(s, p);
  }

  lemma NextNodeIdxIsQuiet(a: Raft, src: NodeId, msg: Message)
    requires |a.log| > 0 && msg.NextNodeIdx?
    ensures QuietNode(a, OnNextNodeIdx(a, src, msg))
  {
  }

  lemma NextNodeIdxIs(s: System, p: Packet)
    requires Running(s) && p.dst in s.nodes && p.msg.NextNodeIdx?
    ensures AfterDelivery(s, p) ==
              System(s.nodes[p.dst := OnNextNodeIdx(s.nodes[p.dst], p.src, p.msg)], s.net - multiset{p} + multiset{}, s.hist)
  {
  }

  lemma SendKeeps(s: System, n: NodeId, peer: NodeId, batch: nat)
    requires ElectionInv(s) && n in s.nodes && peer in s.nodes[n].nextIndex
    ensures ElectionInv(AfterSend(s, n, peer, batch))
  {
    var (b, p) := SendAppend(s.nodes[n], peer, batch);
    SendIsQuiet(s.nodes[n], peer, batch);
    QuietStep(s, n, b, multiset{}, multiset{p}, s.hist);
    assert s.net - multiset{} + multiset{p} == s.net + multiset{p};
  }

  lemma ApplyKeeps(s: System, n: NodeId)
    requires ElectionInv(s) && n in s.nodes
    ensures ElectionInv(AfterApply(s, n))
  {
    var b, h := ApplyCommitted(s.nodes[n]), RecordApply(s.hist, s.nodes[n]);
    QuietStep(s, n, b, multiset{}, multiset{}, h);
    assert s.net - multiset{} + multiset{} == s.net;
  }

  lemma AppendCommandKeeps(s: System, n: NodeId, cmd: Command)
    requires ElectionInv(s) && n in s.nodes && s.nodes[n].role == Leader
    ensures ElectionInv(AfterAppend(s, n, cmd))
  {
    var b := LeaderAppend(s.nodes[n], cmd);
    QuietStep(s, n, b, multiset{}, multiset{}, s.hist.(termLog := s.hist.termLog[b.term := b.log]));
    assert s.net - multiset{} + multiset{} == s.net;
  }

  lemma LocalKeeps(s: System, n: NodeId, b: Raft)
    requires ElectionInv(s) && n in s.nodes && QuietNode(s.nodes[n], b)
    ensures ElectionInv(System(s.nodes[n := b], s.net, s.hist))
  {
    QuietStep(s, n, b, multiset{}, multiset{}, s.hist);
    assert s.net - multiset{} + multiset{} == s.net;
  }

  lemma DropKeeps(s: System, p: Packet)
    requires ElectionInv(s) && p in s.net
    ensures ElectionInv(s.(net := s.net - multiset{p}))
  {
    var t := s.(net := s.net - multiset{p});
    forall q | q in t.net && q.msg.RequestVote? ensures RequestOk(t, q) {
      assert RequestOk(s, q);
    }
    forall q | q in t.net && q.msg.ResponseVote? ensures ResponseOk(t, q) {
      assert ResponseOk(s, q);
    }
    DropRest(s, t);
  }

  lemma DropRest(s: System, t: System)
    requires Shape(s) && VotesRemembered(s) && BallotsFair(s) && CandidatesOk(s) && ElectionsOk(s)
    requires t.nodes == s.nodes && t.hist == s.hist
    ensures Shape(t) && VotesRemembered(t) && BallotsFair(t) && CandidatesOk(t) && ElectionsOk(t)
  {
  }

  lemma DeliveryKeeps(s: System, p: Packet)
    requires ElectionInv(s) && p in s.net && p.dst in s.nodes
    ensures ElectionInv(AfterDelivery(s, p))
  {
    match p.msg
    case RequestVote(_, _, _) =>
      if GrantsVote(AdoptTerm(s.nodes[p.dst], p.msg.term), p.msg) {
        GrantedRequestKeeps(s, p);
      } else {
        RefusedRequestKeeps(s, p);
      }
    case ResponseVote(_) =>
      if CountsVote(s.nodes[p.dst], p.msg) {
        CountedResponseKeeps(s, p);
      } else {
        IgnoredResponseKeeps(s, p);
      }
    case AppendEntries(_, _, _, _) => AppendKeeps(s, p);
    case EmptySnapshot(_, _) => AppendKeeps(s, p);
    case NextNodeIdx(_, _, _) => NextNodeIdxKeeps(s, p);
  }

  lemma StepKeeps(s: System, step: Step)
    requires ElectionInv(s) && Enabled(s, step)
    ensures ElectionInv(Next(s, step))
  {
    match step
    case Timeout(n) => TimeoutKeeps(s, n);
    case Deliver(p) => DeliveryKeeps(s, p);
    case Drop(p) => DropKeeps(s, p);
    case AppendCommand(n, cmd) => AppendCommandKeeps(s, n, cmd);
    case SendTo(n, peer, batch) => SendKeeps(s, n, peer, batch);
    case AdvanceCommit(n, commit) => LocalKeeps(s, n, s.nodes[n].(commitIndex := commit));
    case LoseMajority(n) => LocalKeeps(s, n, StepDown(s.nodes[n]));
    case Apply(n) => ApplyKeeps(s, n);
  }

  lemma StepsKeep(s: System, t: System)
    requires ElectionInv(s) && Steps(s, t)
    ensures ElectionInv(t)
  {
    var step :| Enabled(s, step) && t == Next(s, step);
    StepKeeps(s, step);
  }

  lemma ElectionInvAt(states: seq<System>, i: nat)
    requires Run(states) && 0 < i < |states| && ElectionInv(states[i - 1])
    ensures ElectionInv(states[i])
  {
    RunSteps(states, i);
    StepsKeep(states[i - 1], states[i]);
  }

  lemma {:induction false} RunKeeps(states: seq<System>, i: nat)
    requires Run(states) && i < |states|
    ensures ElectionInv(states[i])
  {
    if i == 0 {
      ElectionInvInit(states[0]);
    } else {
      RunKeeps(states, i - 1);
      ElectionInvAt(states, i);
    }
  }

  // ------------------------------------------------------------- main results

  lemma QuorumsMeet(a: set<NodeId>, b: set<NodeId>, all: set<NodeId>) returns (v: NodeId)
    requires a <= all && b <= all && 2 * |a| > |all| && 2 * |b| > |all|
    ensures v in a && v in b
  {
    if a * b == {} {
      assert |a + b| == |a| + |b|;
      assert a + b <= all;
      CardinalityMonotone(a + b, all);
    }
    v :| v in a * b;
  }

  lemma CardinalityMonotone(a: set<NodeId>, b: set<NodeId>)
    requires a <= b
    ensures |a| <= |b|
  {
    assert b == a + (b - a);
  }

  /** Election Safety: no term ever elects two leaders, and none twice. */
  lemma ElectionSafety(states: seq<System>, i: nat, e: Election, f: Election)
    requires Run(states) && i < |states|
    requires e in states[i].hist.elections && f in states[i].hist.elections && e.term == f.term
    ensures e == f
  {
    RunKeeps(states, i);
    SameTermSameLeader(states[i], e, f);
  }

  lemma SameTermSameLeader(s: System, e: Election, f: Election)
    requires ElectionsOk(s) && e in s.hist.elections && f in s.hist.elections && e.term == f.term
    ensures e == f
  {
    assert ElectionOk(s, e) && ElectionOk(s, f);
    var v := QuorumsMeet(e.quorum, f.quorum, s.nodes.Keys);
    assert s.hist.votes[(e.term, v)].candidate == e.leader;
    assert s.hist.votes[(f.term, v)].candidate == f.leader;
  }

  /** Two nodes that hold office in the same term are the same node. */
  lemma OneLeaderPerTerm(states: seq<System>, i: nat, m: NodeId, n: NodeId)
    requires Run(states) && i < |states|
    requires m in states[i].nodes && n in states[i].nodes
    requires states[i].nodes[m].role == Leader && states[i].nodes[n].role == Leader
    requires states[i].nodes[m].term == states[i].nodes[n].term
    ensures m == n
  {
    RunKeeps(states, i);
    var s := states[i];
    assert Elected(s.hist, s.nodes[m].term, m) && Elected(s.hist, s.nodes[n].term, n);
    var e :| e in s.hist.elections && e.term == s.nodes[m].term && e.leader == m;
    var f :| f in s.hist.elections && f.term == s.nodes[n].term && f.leader == n;
    SameTermSameLeader(s, e, f);
  }

  /** Election restriction: a strict majority voted for the leader, each with a
      log that was no newer, when it voted, than the leader's log at its
      election. */
  lemma ElectionRestriction(states: seq<System>, i: nat, e: Election)
    requires Run(states) && i < |states| && e in states[i].hist.elections
    ensures var s := states[i];
            && e.quorum <= s.nodes.Keys && 2 * |e.quorum| > |s.nodes.Keys|
            && forall v :: v in e.quorum ==>
                 && (e.term, v) in s.hist.votes
                 && s.hist.votes[(e.term, v)].candidate == e.leader
                 && NoNewer(s.hist.votes[(e.term, v)].position, e.position)
  {
    RunKeeps(states, i);
    var s := states[i];
    assert ElectionOk(s, e);
    forall v | v in e.quorum
      ensures && (e.term, v) in s.hist.votes
              && s.hist.votes[(e.term, v)].candidate == e.leader
              && NoNewer(s.hist.votes[(e.term, v)].position, e.position)
    {
      var k := (e.term, v);
      assert k in s.hist.votes;
      var key := (k.0, s.hist.votes[k].candidate);
      assert key in s.hist.candidacies;
    }
  }
}
