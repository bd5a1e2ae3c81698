/** What stands behind a commit: every index that a leader commits was acknowledged by
    more than half of the cluster. Answers carry no term, so this is about the index,
    not about the entry that the leader holds there now. */
module RaftCommit {
  import opened Options
  import opened RaftTypes
  import opened RaftProtocol
  import opened RaftSystem
  import opened RaftElection
  import opened RaftLog
  import opened RaftApply
  import opened RaftRepair
  import opened RaftRounds

  // ---------------------------------------------------------------------- one step

  /** Node m takes an append of node n: it is not behind the term, the append follows an
      entry that the log has, and the log becomes what lies up to there and the new
      entries. */
  ghost predicate TakesAppend(s: System, t: System, p: Packet) {
    && p in s.net && p.msg.AppendEntries? && p.dst in s.nodes && p.dst in t.nodes
    && var a, b, prev := s.nodes[p.dst], t.nodes[p.dst], p.msg.prev;
    && a.term <= p.msg.term == b.term && b.leader == Some(p.src)
    && prev.Some? && 1 <= prev.value.idx <= |a.log| && a.log[prev.value.idx - 1].term == prev.value.term
    && b.log == a.log[..prev.value.idx] + p.msg.entries
  }

  ghost predicate IsSuccess(q: Packet) {
    q.msg.NextNodeIdx? && q.msg.success
  }

  lemma TakenAnswer(r: Raft, src: NodeId, msg: Message, q: Packet)
    requires WellFormedLog(r.log) && msg.AppendEntries? && q in Receive(r, src, msg).1 && IsSuccess(q)
    requires WellFormedLog(Receive(r, src, msg).0.log)
    ensures var g, prev := Receive(r, src, msg).0, msg.prev;
            && r.term <= msg.term == g.term && g.leader == Some(src)
            && prev.Some? && 1 <= prev.value.idx <= |r.log| && r.log[prev.value.idx - 1].term == prev.value.term
            && g.log == r.log[..prev.value.idx] + msg.entries
            && q.src == r.id && q.dst == src && q.msg.next <= |g.log| + 1
  {
    var i := msg.prev.value.idx;
    assert EntriesFrom(r.log, i) == if 1 <= i <= |r.log| then r.log[i - 1..] else [];
  }

  lemma OtherAnswer(r: Raft, src: NodeId, msg: Message, q: Packet)
    requires |r.log| > 0 && !msg.AppendEntries? && q in Receive(r, src, msg).1
    ensures !IsSuccess(q)
  {
  }

  lemma DeliveredAnswer(s: System, p: Packet, q: Packet)
    requires Running(s) && p in s.net && p.dst in s.nodes && WellFormedLog(s.nodes[p.dst].log)
    requires WellFormedLog(AfterDelivery(s, p).nodes[p.dst].log)
    requires q in AfterDelivery(s, p).net && q !in s.net && IsSuccess(q)
    ensures var t := AfterDelivery(s, p);
            && TakesAppend(s, t, p) && q.src == p.dst && q.dst == p.src && q.msg.next <= |t.nodes[p.dst].log| + 1
  {
    if p.msg.AppendEntries? {
      TakenAnswer(s.nodes[p.dst], p.src, p.msg, q);
    } else {
      OtherAnswer(s.nodes[p.dst], p.src, p.msg, q);
    }
  }

  /** The node took an append of the one that it answers, and its log reached the index
      before the one of the answer. */
  ghost predicate ComesFromTaking(s: System, t: System, q: Packet)
    requires IsSuccess(q)
  {
    exists p :: TakesAppend(s, t, p) && q.src == p.dst && q.dst == p.src && q.msg.next <= |t.nodes[p.dst].log| + 1
  }

  /** An answer that reports success comes from taking an append. */
  lemma AnswerIsTaken(s: System, step: Step, q: Packet)
    requires Running(s) && Enabled(s, step) && q in Next(s, step).net && q !in s.net && IsSuccess(q)
    requires forall n :: n in s.nodes ==> WellFormedLog(s.nodes[n].log)
    requires forall n :: n in Next(s, step).nodes ==> WellFormedLog(Next(s, step).nodes[n].log)
    ensures ComesFromTaking(s, Next(s, step), q)
  {
    match step
    case Deliver(p) => DeliveredAnswer(s, p, q);
    case _ =>
  }

  // ------------------------------------------------------------------- along a run

  /** In step j, node m took an append of node n, after which its log reached index i at
      least, and sent the answer q, which says so. */
  ghost predicate AnsweredAt(states: seq<System>, j: nat, q: Packet, i: int) {
    && j + 1 < |states| && IsSuccess(q) && q in states[j + 1].net && i <= q.msg.next - 1
    && ComesFromTaking(states[j], states[j + 1], q)
  }

  ghost predicate AnsweredBefore(states: seq<System>, k: nat, q: Packet, i: int) {
    exists j: nat :: j < k && AnsweredAt(states, j, q, i)
  }

  /** In step j, the answer q reached its leader, in this term of office. */
  ghost predicate HeardAt(states: seq<System>, j: nat, q: Packet, term: nat) {
    && j + 1 < |states| && IsSuccess(q) && q in states[j].net && q.dst in states[j].nodes && q.dst in states[j + 1].nodes
    && states[j].nodes[q.dst].role == Leader && states[j].nodes[q.dst].term == term
    && q.src in states[j + 1].nodes[q.dst].matchIndex && states[j + 1].nodes[q.dst].matchIndex[q.src] == q.msg.next - 1
  }

  /** Before state k, node m acknowledged index i to node n: it took an append and
      answered, and the answer reached n in its present term of office. */
  ghost predicate Acknowledged(states: seq<System>, k: nat, n: NodeId, m: NodeId, i: int)
    requires k < |states| && n in states[k].nodes
  {
    exists j: nat, q: Packet :: j < k && q.src == m && q.dst == n && IsSuccess(q) && AnsweredBefore(states, j, q, i)
                        && HeardAt(states, j, q, states[k].nodes[n].term)
  }

  lemma LogsNumbered(states: seq<System>, i: nat)
    requires Run(states) && i < |states|
    ensures Numbered(states[i])
  {
    forall n | n in states[i].nodes ensures WellFormedLog(states[i].nodes[n].log) {
      RunAnchored(states, i, n);
    }
  }

  /** Every success under way was answered before. */
  lemma {:induction false} SuccessWasAnswered(states: seq<System>, k: nat, q: Packet)
    requires Run(states) && k < |states| && q in states[k].net && IsSuccess(q)
    ensures AnsweredBefore(states, k, q, q.msg.next - 1)
    decreases k
  {
    if k > 0 {
      if q in states[k - 1].net {
        SuccessWasAnswered(states, k - 1, q);
        var j: nat :| j < k - 1 && AnsweredAt(states, j, q, q.msg.next - 1);
      } else {
        AnsweredNow(states, k, q);
      }
    }
  }

  lemma AnsweredNow(states: seq<System>, k: nat, q: Packet)
    requires Run(states) && 0 < k < |states| && q in states[k].net && q !in states[k - 1].net && IsSuccess(q)
    ensures AnsweredAt(states, k - 1, q, q.msg.next - 1)
  {
    CameNow(states, k, q);
  }

  lemma CameNow(states: seq<System>, k: nat, q: Packet)
    requires Run(states) && 0 < k < |states| && q in states[k].net && q !in states[k - 1].net && IsSuccess(q)
    ensures ComesFromTaking(states[k - 1], states[k], q)
  {
    LogsNumbered(states, k - 1);
    LogsNumbered(states, k);
    RunSteps(states, k);
    NewAnswer(states[k - 1], states[k], q);
  }

  /** All logs are numbered. */
  ghost predicate Numbered(s: System) {
    forall n :: n in s.nodes ==> WellFormedLog(s.nodes[n].log)
  }

  lemma NewAnswer(s: System, t: System, q: Packet)
    requires Steps(s, t) && q in t.net && q !in s.net && IsSuccess(q) && Numbered(s) && Numbered(t)
    ensures ComesFromTaking(s, t, q)
  {
    var step :| Enabled(s, step) && t == Next(s, step);
    AnswerIsTaken(s, step, q);
  }

  /** A leader of t was leader of the same term before with the same match index for m;
      or has none for m; or has just received an answer of m. */
  ghost predicate Matches(s: System, t: System, n: NodeId, m: NodeId) {
    && n in s.nodes && n in t.nodes && m in t.nodes[n].matchIndex
    && var a, b := s.nodes[n], t.nodes[n];
    || (a.role == Leader && a.term == b.term && m in a.matchIndex && a.matchIndex[m] == b.matchIndex[m])
    || b.matchIndex[m] == 0
    || (a.role == Leader && a.term == b.term
        && exists q: Packet :: q in s.net && IsSuccess(q) && q.src == m && q.dst == n && b.matchIndex[m] == q.msg.next - 1)
  }

  lemma ReceiveMatches(r: Raft, p: Packet, m: NodeId)
    requires |r.log| > 0 && m in r.peers && Tracks(r) && Receive(r, p.src, p.msg).0.role == Leader
    ensures var b := Receive(r, p.src, p.msg).0;
            && m in b.matchIndex
            && (|| (r.role == Leader && r.term == b.term && r.matchIndex[m] == b.matchIndex[m])
                || b.matchIndex[m] == 0
                || (r.role == Leader && r.term == b.term && IsSuccess(p) && p.src == m && b.matchIndex[m] == p.msg.next - 1))
  {
    match p.msg
    case RequestVote(_, _, _) =>
    case ResponseVote(_) =>
    case AppendEntries(_, _, _, _) =>
    case EmptySnapshot(_, _) =>
    case NextNodeIdx(_, _, _) =>
  }

  lemma StepMatches(s: System, step: Step, n: NodeId, m: NodeId)
    requires Running(s) && Enabled(s, step) && n in s.nodes && m in s.nodes[n].peers && Tracks(s.nodes[n])
    requires n in Next(s, step).nodes && Next(s, step).nodes[n].role == Leader
    ensures Matches(s, Next(s, step), n, m)
  {
    match step
    case Deliver(p) =>
      if p.dst == n {
        ReceiveMatches(s.nodes[n], p, m);
        DeliveryMatches(s, p, m);
      }
    case Timeout(x) => TimeoutMatches(s, x, n, m);
    case _ => LocalMatches(s, step, n, m);
  }

  lemma DeliveryMatches(s: System, p: Packet, m: NodeId)
    requires Running(s) && p in s.net && p.dst in s.nodes && m in s.nodes[p.dst].peers && m in s.nodes[p.dst].matchIndex
    requires var r, b := s.nodes[p.dst], Receive(s.nodes[p.dst], p.src, p.msg).0;
             && m in b.matchIndex
             && (|| (r.role == Leader && r.term == b.term && r.matchIndex[m] == b.matchIndex[m])
                 || b.matchIndex[m] == 0
                 || (r.role == Leader && r.term == b.term && IsSuccess(p) && p.src == m && b.matchIndex[m] == p.msg.next - 1))
    ensures Matches(s, AfterDelivery(s, p), p.dst, m)
  {
    assert AfterDelivery(s, p).nodes[p.dst] == Receive(s.nodes[p.dst], p.src, p.msg).0;
  }

  lemma TimeoutMatches(s: System, x: NodeId, n: NodeId, m: NodeId)
    requires Running(s) && x in s.nodes && s.nodes[x].role != Leader && n in s.nodes && m in s.nodes[n].peers && Tracks(s.nodes[n])
    requires AfterTimeout(s, x).nodes[n].role == Leader
    ensures Matches(s, AfterTimeout(s, x), n, m)
  {
    if x != n {
      assert AfterTimeout(s, x).nodes[n] == s.nodes[n];
    }
  }

  lemma LocalMatches(s: System, step: Step, n: NodeId, m: NodeId)
    requires Running(s) && Enabled(s, step) && n in s.nodes && m in s.nodes[n].peers && Tracks(s.nodes[n])
    requires !step.Deliver? && !step.Timeout? && n in Next(s, step).nodes && Next(s, step).nodes[n].role == Leader
    ensures Matches(s, Next(s, step), n, m)
  {
    LocalKeepsMatch(s, step, n);
    SameMatches(s, Next(s, step), n, m);
  }

  lemma LocalKeepsMatch(s: System, step: Step, n: NodeId)
    requires Running(s) && Enabled(s, step) && n in s.nodes && !step.Deliver? && !step.Timeout?
    ensures n in Next(s, step).nodes
    ensures var a, b := s.nodes[n], Next(s, step).nodes[n];
            b.matchIndex == a.matchIndex && b.term == a.term && (b.role == Leader ==> a.role == Leader)
  {
    match step
    case AppendCommand(_, _) =>
    case SendTo(_, _, _) =>
    case Apply(_) =>
    case _ =>
  }

  lemma SameMatches(s: System, t: System, n: NodeId, m: NodeId)
    requires n in s.nodes && n in t.nodes && t.nodes[n].role == Leader && m in s.nodes[n].matchIndex
    requires var a, b := s.nodes[n], t.nodes[n]; b.matchIndex == a.matchIndex && b.term == a.term && (b.role == Leader ==> a.role == Leader)
    ensures Matches(s, t, n, m)
  {
  }

  lemma StepsMatch(s: System, t: System, n: NodeId, m: NodeId)
    requires Steps(s, t) && n in s.nodes && m in s.nodes[n].peers && Tracks(s.nodes[n])
    requires n in t.nodes && t.nodes[n].role == Leader
    ensures Matches(s, t, n, m)
  {
    var step :| Enabled(s, step) && t == Next(s, step);
    StepMatches(s, step, n, m);
  }

  lemma PeersAre(states: seq<System>, i: nat, n: NodeId)
    requires Run(states) && i < |states| && n in states[i].nodes
    ensures states[i].nodes[n].peers == states[i].nodes.Keys - {n}
  {
    RunKeeps(states, i);
    assert PeersOf(states[i].nodes[n], states[i].nodes.Keys);
  }

  lemma SamePeers(states: seq<System>, i: nat, n: NodeId)
    requires Run(states) && 0 < i < |states| && n in states[i].nodes
    ensures n in states[i - 1].nodes && states[i - 1].nodes[n].peers == states[i].nodes[n].peers
  {
    MembersAt(states, i);
    PeersAre(states, i - 1, n);
    PeersAre(states, i, n);
  }

  lemma AcknowledgedLater(states: seq<System>, k: nat, n: NodeId, m: NodeId, i: int)
    requires 0 < k < |states| && n in states[k - 1].nodes && n in states[k].nodes
    requires states[k - 1].nodes[n].term == states[k].nodes[n].term && Acknowledged(states, k - 1, n, m, i)
    ensures Acknowledged(states, k, n, m, i)
  {
  }

  lemma AcknowledgedNow(states: seq<System>, k: nat, n: NodeId, m: NodeId, q: Packet)
    requires Run(states) && 0 < k < |states| && n in states[k - 1].nodes && n in states[k].nodes
    requires states[k - 1].nodes[n].role == Leader && states[k - 1].nodes[n].term == states[k].nodes[n].term
    requires q in states[k - 1].net && IsSuccess(q) && q.src == m && q.dst == n
    requires m in states[k].nodes[n].matchIndex && states[k].nodes[n].matchIndex[m] == q.msg.next - 1
    ensures Acknowledged(states, k, n, m, q.msg.next - 1)
  {
    SuccessWasAnswered(states, k - 1, q);
    assert HeardAt(states, k - 1, q, states[k].nodes[n].term);
  }

  /** What a leader takes a peer to hold, the peer acknowledged to it. */
  lemma {:induction false} MatchIsAcknowledged(states: seq<System>, k: nat, n: NodeId, m: NodeId)
    requires Run(states) && k < |states| && n in states[k].nodes && m in states[k].nodes[n].peers
    requires states[k].nodes[n].role == Leader
    ensures m in states[k].nodes[n].matchIndex
    ensures states[k].nodes[n].matchIndex[m] > 0 ==> Acknowledged(states, k, n, m, states[k].nodes[n].matchIndex[m])
    decreases k
  {
    RunTracks(states, k, n);
    if k == 0 {
      FreshFollows(states[0], n);
    } else {
      SamePeers(states, k, n);
      RunTracks(states, k - 1, n);
      RunSteps(states, k);
      StepsMatch(states[k - 1], states[k], n, m);
      MatchStep(states, k, n, m);
    }
  }

  lemma FreshFollows(s: System, n: NodeId)
    requires Init(s) && n in s.nodes
    ensures s.nodes[n].role == Follower
  {
    assert StartsFresh(s, n);
  }

  lemma {:induction false} MatchStep(states: seq<System>, k: nat, n: NodeId, m: NodeId)
    requires Run(states) && 0 < k < |states| && Matches(states[k - 1], states[k], n, m) && m in states[k - 1].nodes[n].peers
    ensures states[k].nodes[n].matchIndex[m] > 0 ==> Acknowledged(states, k, n, m, states[k].nodes[n].matchIndex[m])
    decreases k, 0
  {
    var a, b := states[k - 1].nodes[n], states[k].nodes[n];
    if b.matchIndex[m] > 0 {
      if a.role == Leader && a.term == b.term && m in a.matchIndex && a.matchIndex[m] == b.matchIndex[m] {
        MatchIsAcknowledged(states, k - 1, n, m);
        AcknowledgedLater(states, k, n, m, b.matchIndex[m]);
      } else {
        var q: Packet :| q in states[k - 1].net && IsSuccess(q) && q.src == m && q.dst == n && b.matchIndex[m] == q.msg.next - 1;
        AcknowledgedNow(states, k, n, m, q);
      }
    }
  }

  lemma AcknowledgedLess(states: seq<System>, k: nat, n: NodeId, m: NodeId, i: int, less: int)
    requires k < |states| && n in states[k].nodes && Acknowledged(states, k, n, m, i) && less <= i
    ensures Acknowledged(states, k, n, m, less)
  {
    var j: nat, q: Packet :| j < k && q.src == m && q.dst == n && IsSuccess(q) && AnsweredBefore(states, j, q, i)
                             && HeardAt(states, j, q, states[k].nodes[n].term);
    var h: nat :| h < j && AnsweredAt(states, h, q, i);
    assert AnsweredAt(states, h, q, less);
  }

  // -------------------------------------------------------------------- main result

  /** Node n and the nodes that acknowledged index i to it in its present term are more
      than half of the cluster. */
  ghost predicate Backed(states: seq<System>, k: nat, n: NodeId, i: int, quorum: set<NodeId>)
    requires k < |states| && n in states[k].nodes
  {
    && n in quorum && quorum <= states[k].nodes.Keys && 2 * |quorum| > |states[k].nodes.Keys|
    && forall m :: m in quorum && m != n ==> Acknowledged(states, k, n, m, i)
  }

  lemma HoldersBack(states: seq<System>, k: nat, n: NodeId, i: nat)
    requires Run(states) && k < |states| && n in states[k].nodes && states[k].nodes[n].role == Leader
    requires i > 0 && HeldByMost(states[k].nodes[n], i)
    ensures Backed(states, k, n, i, Holders(states[k].nodes[n], i) + {n})
  {
    var r := states[k].nodes[n];
    PeersAre(states, k, n);
    var quorum := Holders(r, i) + {n};
    assert |quorum| == |Holders(r, i)| + 1 && |states[k].nodes.Keys| == |r.peers| + 1 by {
      assert states[k].nodes.Keys == r.peers + {n};
    }
    forall m | m in quorum && m != n ensures Acknowledged(states, k, n, m, i) {
      MatchIsAcknowledged(states, k, n, m);
      AcknowledgedLess(states, k, n, m, r.matchIndex[m], i);
    }
  }

  /** Whenever a leader commits, then for every index that it passes it and more than
      half of the cluster stand behind it: every other node of that majority took an
      append of it, after which its log reached the index, and said so in an answer that
      the leader received in this term. */
  lemma CommitIsBacked(states: seq<System>, k: nat, n: NodeId, c: nat, i: nat)
    requires Run(states) && k < |states| && n in states[k].nodes && states[k].nodes[n].role == Leader
    requires Running(states[k]) && Enabled(states[k], AdvanceCommit(n, c)) && states[k].nodes[n].commitIndex < i <= c
    ensures i <= |states[k].nodes[n].log|
    ensures exists quorum :: Backed(states, k, n, i, quorum)
  {
    RunKeepsLogs(states, k);
    assert NodeLogOk(states[k].nodes[n], states[k].hist);
    CommitsToIff(states[k].nodes[n], c);
    HoldersBack(states, k, n, i);
  }
}
