/** Replicated logs. `termLog[t]` is the log of the leader of term t: whatever
    log holds an entry of term t, up to that entry it is a piece of termLog[t].
    A follower truncates on every accepted append, and acknowledgements of
    earlier terms may still arrive; neither breaks this. */
module RaftLog {
  import opened Options
  import opened RaftTypes
  import opened RaftProtocol
  import opened RaftSystem
  import opened RaftElection

  type TermLogs = map<nat, Log>

  ghost predicate Agree(a: Log, b: Log, n: nat) {
    n <= |a| && n <= |b| && forall j :: 0 <= j < n ==> a[j] == b[j]
  }

  ghost predicate AnchoredAt(log: Log, k: nat, logs: TermLogs)
    requires k < |log|
  {
    log[k].term in logs && Agree(log, logs[log[k].term], k + 1)
  }

  /** Every entry sits where, and behind what, its term's leader put it. */
  ghost predicate Anchored(log: Log, logs: TermLogs) {
    WellFormedLog(log) && forall k {:trigger AnchoredAt(log, k, logs)} :: 0 <= k < |log| ==> AnchoredAt(log, k, logs)
  }

  ghost predicate TermLogsOk(h: History) {
    && 0 in h.termLog
    && (forall t :: t in h.termLog ==> Anchored(h.termLog[t], h.termLog))
    && (forall t :: t in h.termLog && t > 0 ==> exists e :: e in h.elections && e.term == t)
  }

  ghost predicate NextOk(r: Raft) {
    forall p :: p in r.nextIndex ==> r.nextIndex[p] >= 2
  }

  ghost predicate NodeLogOk(r: Raft, h: History) {
    && Anchored(r.log, h.termLog)
    && r.id in h.epoch && h.epoch[r.id] in h.termLog
    && Agree(r.log, h.termLog[h.epoch[r.id]], |r.log|)
    && (r.role == Leader ==> r.term in h.termLog && r.log == h.termLog[r.term] && h.epoch[r.id] == r.term)
    && (r.role == Candidate ==> r.term > 0)
    && NextOk(r)
    && r.commitIndex <= |r.log|
  }

  /** The entries of an append are a stretch of its term's log, attached to the
      entry they follow there. */
  ghost predicate AppendOk(h: History, msg: Message)
    requires msg.AppendEntries?
  {
    && msg.term in h.termLog
    && (msg.prev.Some? ==>
          var log, i := h.termLog[msg.term], msg.prev.value.idx;
          && 1 <= i && i + |msg.entries| <= |log|
          && log[i - 1].term == msg.prev.value.term
          && forall j :: 0 <= j < |msg.entries| ==> msg.entries[j] == log[i + j])
  }

  ghost predicate PacketOk(h: History, msg: Message) {
    && (msg.AppendEntries? ==> AppendOk(h, msg))
    && !msg.EmptySnapshot?
    && (msg.NextNodeIdx? && msg.reset ==> msg.next >= 2)
  }

  ghost predicate ApplicationOk(a: Application, h: History) {
    && a.epoch in h.termLog
    && 1 <= a.entry.idx <= |h.termLog[a.epoch]|
    && h.termLog[a.epoch][a.entry.idx - 1] == a.entry
  }

  ghost predicate AppliedOk(h: History) {
    forall n, i :: n in h.applied && 0 <= i < |h.applied[n]| ==> ApplicationOk(h.applied[n][i], h)
  }

  ghost predicate NodesOk(s: System) {
    forall n :: n in s.nodes ==> NodeLogOk(s.nodes[n], s.hist)
  }

  ghost predicate PacketsOk(s: System) {
    forall p :: p in s.net ==> PacketOk(s.hist, p.msg)
  }

  ghost predicate LogInv(s: System) {
    TermLogsOk(s.hist) && NodesOk(s) && PacketsOk(s) && AppliedOk(s.hist)
  }

  lemma LogInvInit(s: System)
    requires Init(s)
    ensures LogInv(s)
  {
    assert AnchoredAt([FIRST_ENTRY], 0, s.hist.termLog);
    assert TermLogsOk(s.hist);
    forall n | n in s.nodes ensures NodeLogOk(s.nodes[n], s.hist) {
      InitialNode(s, n);
    }
  }

  lemma InitialNode(s: System, n: NodeId)
    requires Init(s) && n in s.nodes && Anchored([FIRST_ENTRY], s.hist.termLog)
    ensures NodeLogOk(s.nodes[n], s.hist)
  {
    assert StartsFresh(s, n);
    assert s.nodes[n].log == [FIRST_ENTRY];
  }

  // ----------------------------------------------------- logs of terms only grow

  ghost predicate LogsGrow(a: TermLogs, b: TermLogs) {
    forall t :: t in a ==> t in b && Agree(a[t], b[t], |a[t]|)
  }

  lemma GrowAnchored(log: Log, a: TermLogs, b: TermLogs)
    requires Anchored(log, a) && LogsGrow(a, b)
    ensures Anchored(log, b)
  {
    forall k | 0 <= k < |log| ensures AnchoredAt(log, k, b) {
      assert AnchoredAt(log, k, a);
    }
  }

  lemma GrowPacket(msg: Message, h: History, g: History)
    requires PacketOk(h, msg) && LogsGrow(h.termLog, g.termLog)
    ensures PacketOk(g, msg)
  {
  }

  lemma GrowApplied(h: History, g: History)
    requires AppliedOk(h) && LogsGrow(h.termLog, g.termLog) && g.applied == h.applied
    ensures AppliedOk(g)
  {
    forall n, i | n in g.applied && 0 <= i < |g.applied[n]| ensures ApplicationOk(g.applied[n][i], g) {
      assert ApplicationOk(h.applied[n][i], h);
    }
  }

  lemma GrowNode(r: Raft, h: History, g: History)
    requires NodeLogOk(r, h) && LogsGrow(h.termLog, g.termLog)
    requires r.id in g.epoch && g.epoch[r.id] == h.epoch[r.id]
    requires r.role == Leader ==> g.termLog[r.term] == h.termLog[r.term]
    ensures NodeLogOk(r, g)
  {
    GrowAnchored(r.log, h.termLog, g.termLog);
  }

  /** A piece of an anchored log is anchored. */
  lemma PieceAnchored(piece: Log, log: Log, logs: TermLogs)
    requires Anchored(log, logs) && 1 <= |piece| && Agree(piece, log, |piece|)
    ensures Anchored(piece, logs)
  {
    forall k | 0 <= k < |piece| ensures AnchoredAt(piece, k, logs) && piece[k].idx == k + 1 {
      assert AnchoredAt(log, k, logs);
    }
  }

  /** Two anchored logs that share a term at one position agree up to it. */
  lemma SharedTermAgrees(a: Log, b: Log, k: nat, logs: TermLogs)
    requires Anchored(a, logs) && Anchored(b, logs) && k < |a| && k < |b| && a[k].term == b[k].term
    ensures Agree(a, b, k + 1)
  {
    assert AnchoredAt(a, k, logs) && AnchoredAt(b, k, logs);
  }

  // ------------------------------------------------------------- one node moves

  /** All a step has to show: the node it moves, the packets it sends and the
      history it leaves are in order, and no other leader's log is touched. */
  lemma LogStep(s: System, n: NodeId, b: Raft, taken: multiset<Packet>, sent: multiset<Packet>, h: History)
    requires Shape(s) && LogInv(s) && n in s.nodes && b.id == n
    requires LogsGrow(s.hist.termLog, h.termLog) && TermLogsOk(h) && AppliedOk(h)
    requires NodeLogOk(b, h)
    requires forall p :: p in sent ==> PacketOk(h, p.msg)
    requires forall m :: m in s.nodes && m != n ==> m in h.epoch && h.epoch[m] == s.hist.epoch[m]
    requires forall m :: m in s.nodes && m != n && s.nodes[m].role == Leader ==>
                           h.termLog[s.nodes[m].term] == s.hist.termLog[s.nodes[m].term]
    ensures LogInv(System(s.nodes[n := b], s.net - taken + sent, h))
  {
    var t := System(s.nodes[n := b], s.net - taken + sent, h);
    forall m | m in t.nodes ensures NodeLogOk(t.nodes[m], h) {
      if m != n {
        GrowNode(s.nodes[m], s.hist, h);
      }
    }
    forall p | p in t.net ensures PacketOk(h, p.msg) {
      if p !in sent {
        GrowPacket(p.msg, s.hist, h);
      }
    }
  }

  /** A step that leaves all logs alone. */
  lemma LogQuietStep(s: System, n: NodeId, b: Raft, taken: multiset<Packet>, sent: multiset<Packet>, h: History)
    requires Shape(s) && LogInv(s) && n in s.nodes
    requires b.id == n && b.log == s.nodes[n].log && NextOk(b) && b.commitIndex <= |b.log|
    requires b.role == Leader ==> s.nodes[n].role == Leader && b.term == s.nodes[n].term
    requires b.role == Candidate ==> b.term > 0
    requires h.termLog == s.hist.termLog && h.epoch == s.hist.epoch && h.elections == s.hist.elections
    requires AppliedOk(h)
    requires forall p :: p in sent ==> PacketOk(h, p.msg)
    ensures LogInv(System(s.nodes[n := b], s.net - taken + sent, h))
  {
    LogStep(s, n, b, taken, sent, h);
  }

  // ------------------------------------------------------------ leader's side

  /** The entries a leader sends are a stretch of its own log. */
  lemma SentPacketOk(r: Raft, h: History, peer: NodeId, batch: nat)
    requires NodeLogOk(r, h) && r.role == Leader && peer in r.nextIndex && batch > 0
    ensures PacketOk(h, SendAppend(r, peer, batch).1.msg)
    ensures NextOk(SendAppend(r, peer, batch).0)
  {
    Stretch(r.log, r.nextIndex[peer], batch);
  }

  /** What a sending round finds in the log. */
  lemma Stretch(log: Log, next: nat, batch: nat)
    requires WellFormedLog(log) && next >= 2
    ensures var es := Take(EntriesFrom(log, next), batch);
            && (forall j :: 0 <= j < |es| ==> next - 1 + j < |log| && es[j] == log[next - 1 + j])
            && (es != [] ==> next - 1 + |es| <= |log| && LastIdx(es) + 1 >= 2)
    ensures PrevOf(log, next) == if next - 2 < |log| then Some(Prev(next - 1, log[next - 2].term)) else None
  {
    var all := EntriesFrom(log, next);
    assert all == if next - 1 >= |log| then [] else log[next - 1..];
    var es := Take(all, batch);
    if es != [] {
      assert es[|es| - 1] == log[next - 1 + (|es| - 1)];
    }
  }

  lemma SendKeepsLogs(s: System, n: NodeId, peer: NodeId, batch: nat)
    requires Shape(s) && LogInv(s) && n in s.nodes && s.nodes[n].role == Leader
    requires peer in s.nodes[n].nextIndex && batch > 0
    ensures LogInv(AfterSend(s, n, peer, batch))
  {
    var (b, p) := SendAppend(s.nodes[n], peer, batch);
    SentPacketOk(s.nodes[n], s.hist, peer, batch);
    LogQuietStep(s, n, b, multiset{}, multiset{p}, s.hist);
    assert s.net - multiset{} + multiset{p} == s.net + multiset{p};
  }

  /** Adding one entry of term t behind an anchored log keeps it anchored. */
  lemma ExtendAnchored(log: Log, cmd: Command, t: nat, logs: TermLogs)
    requires Anchored(log, logs)
    requires t in logs ==> Agree(logs[t], log, |logs[t]|)
    ensures var more := log + [Entry(cmd, LastIdx(log) + 1, t)];
            Anchored(more, logs[t := more]) && LogsGrow(logs, logs[t := more])
  {
    var more := log + [Entry(cmd, LastIdx(log) + 1, t)];
    var next := logs[t := more];
    assert LogsGrow(logs, next);
    GrowAnchored(log, logs, next);
    forall k | 0 <= k < |more| ensures AnchoredAt(more, k, next) && more[k].idx == k + 1 {
      if k < |log| {
        assert AnchoredAt(log, k, next);
      }
    }
  }

  lemma ExtendTermLogs(h: History, g: History, log: Log, cmd: Command, t: nat)
    requires TermLogsOk(h) && Anchored(log, h.termLog)
    requires t in h.termLog ==> Agree(h.termLog[t], log, |h.termLog[t]|)
    requires g.termLog == h.termLog[t := log + [Entry(cmd, LastIdx(log) + 1, t)]]
    requires h.elections <= g.elections && (t > 0 ==> exists e :: e in g.elections && e.term == t)
    ensures TermLogsOk(g) && LogsGrow(h.termLog, g.termLog)
  {
    ExtendAnchored(log, cmd, t, h.termLog);
    forall u | u in g.termLog ensures Anchored(g.termLog[u], g.termLog) {
      if u != t {
        GrowAnchored(h.termLog[u], h.termLog, g.termLog);
      }
    }
    forall u | u in g.termLog && u > 0 ensures exists e :: e in g.elections && e.term == u {
      if u != t {
        var e :| e in h.elections && e.term == u;
        assert e in g.elections;
      }
    }
  }

  lemma CommandNode(a: Raft, h: History, g: History, cmd: Command)
    requires NodeLogOk(a, h) && a.role == Leader
    requires g == h.(termLog := h.termLog[a.term := LeaderAppend(a, cmd).log])
    requires TermLogsOk(h) && exists e :: e in h.elections && e.term == a.term
    ensures TermLogsOk(g) && LogsGrow(h.termLog, g.termLog) && NodeLogOk(LeaderAppend(a, cmd), g)
  {
    ExtendTermLogs(h, g, a.log, cmd, a.term);
  }

  lemma CommandKeepsLogs(s: System, n: NodeId, cmd: Command)
    requires Shape(s) && ElectionsOk(s) && LogInv(s) && n in s.nodes && s.nodes[n].role == Leader
    ensures LogInv(AfterAppend(s, n, cmd))
  {
    var b := LeaderAppend(s.nodes[n], cmd);
    var h := s.hist.(termLog := s.hist.termLog[b.term := b.log]);
    CommandFacts(s, n, cmd);
    OtherTermLogs(s, n, cmd);
    CommandIs(s, n, cmd);
    LogStep(s, n, b, multiset{}, multiset{}, h);
    SameLogInv(System(s.nodes[n := b], s.net - multiset{} + multiset{}, h), AfterAppend(s, n, cmd));
  }

  lemma OtherTermLogs(s: System, n: NodeId, cmd: Command)
    requires Shape(s) && ElectionsOk(s) && NodesOk(s) && n in s.nodes && s.nodes[n].role == Leader
    ensures var b := LeaderAppend(s.nodes[n], cmd);
            var h := s.hist.(termLog := s.hist.termLog[b.term := b.log]);
            && b.id == n
            && (forall m :: m in s.nodes && m != n ==> m in h.epoch && h.epoch[m] == s.hist.epoch[m])
            && forall m :: m in s.nodes && m != n && s.nodes[m].role == Leader ==>
                             s.nodes[m].term in s.hist.termLog && h.termLog[s.nodes[m].term] == s.hist.termLog[s.nodes[m].term]
  {
    OtherLeaders(s, n);
    forall m | m in s.nodes && s.nodes[m].role == Leader ensures s.nodes[m].term in s.hist.termLog {
      assert NodeLogOk(s.nodes[m], s.hist);
    }
  }

  lemma SameLogInv(s: System, t: System)
    requires LogInv(s) && t == s
    ensures LogInv(t)
  {
  }

  lemma CommandIs(s: System, n: NodeId, cmd: Command)
    requires Running(s) && n in s.nodes
    ensures var b := LeaderAppend(s.nodes[n], cmd);
            AfterAppend(s, n, cmd) ==
              System(s.nodes[n := b], s.net - multiset{} + multiset{}, s.hist.(termLog := s.hist.termLog[b.term := b.log]))
  {
    assert s.net - multiset{} + multiset{} == s.net;
  }

  lemma CommandFacts(s: System, n: NodeId, cmd: Command)
    requires Shape(s) && ElectionsOk(s) && LogInv(s) && n in s.nodes && s.nodes[n].role == Leader
    ensures var b := LeaderAppend(s.nodes[n], cmd);
            var h := s.hist.(termLog := s.hist.termLog[b.term := b.log]);
            TermLogsOk(h) && LogsGrow(s.hist.termLog, h.termLog) && NodeLogOk(b, h) && AppliedOk(h)
  {
    var a, b := s.nodes[n], LeaderAppend(s.nodes[n], cmd);
    var h := s.hist.(termLog := s.hist.termLog[b.term := b.log]);
    assert Elected(s.hist, a.term, n);
    CommandNode(a, s.hist, h, cmd);
    GrowApplied(s.hist, h);
  }

  lemma OtherLeaders(s: System, n: NodeId)
    requires ElectionsOk(s) && n in s.nodes && s.nodes[n].role == Leader
    ensures forall m :: m in s.nodes && m != n && s.nodes[m].role == Leader ==> s.nodes[m].term != s.nodes[n].term
  {
    forall m | m in s.nodes && m != n && s.nodes[m].role == Leader ensures s.nodes[m].term != s.nodes[n].term {
      assert Elected(s.hist, s.nodes[m].term, m) && Elected(s.hist, s.nodes[n].term, n);
      var e :| e in s.hist.elections && e.term == s.nodes[m].term && e.leader == m;
      var f :| f in s.hist.elections && f.term == s.nodes[n].term && f.leader == n;
      if e.term == f.term {
        SameTermSameLeader(s, e, f);
      }
    }
  }

  // --------------------------------------------------------- winning an election

  lemma FreshTerm(s: System, n: NodeId)
    requires ElectionInv(s) && LogInv(s) && n in s.nodes
    requires s.nodes[n].role == Candidate && Majority(s.nodes[n], s.nodes[n].votesCount)
    ensures s.nodes[n].term !in s.hist.termLog
  {
    var a := s.nodes[n];
    assert NodeLogOk(a, s.hist);
    forall e | e in s.hist.elections ensures e.term != a.term {
      assert CandidateOk(s, n);
      WinStep(s, n);
      LeadersAgree(AfterWin(s, n), e, Election(a.term, n, s.hist.counted[n], End(a.log)));
    }
  }

  lemma LeadersAgree(s: System, e: Election, f: Election)
    requires ElectionInv(s) && e in s.hist.elections && f in s.hist.elections
    ensures e.term == f.term ==> e.leader == f.leader
  {
    if e.term == f.term {
      SameTermSameLeader(s, e, f);
    }
  }

  lemma WinNode(a: Raft, h: History, quorum: set<NodeId>)
    requires NodeLogOk(a, h) && a.term !in h.termLog && TermLogsOk(h)
    ensures var b := BecomeLeader(a);
            var g := RecordElection(h, a.id, a, b, quorum);
            TermLogsOk(g) && LogsGrow(h.termLog, g.termLog) && NodeLogOk(b, g)
  {
    var b := BecomeLeader(a);
    var g := RecordElection(h, a.id, a, b, quorum);
    BecomeLeaderFacts(a);
    assert Election(a.term, a.id, quorum, End(a.log)) in g.elections;
    ExtendTermLogs(h, g, a.log, NoOp, a.term);
  }

  lemma WinKeepsLogs(s: System, n: NodeId)
    requires Shape(s) && LogInv(s) && n in s.nodes && s.nodes[n].term !in s.hist.termLog
    ensures LogInv(AfterWin(s, n))
  {
    var b := BecomeLeader(s.nodes[n]);
    var h := RecordElection(s.hist, n, s.nodes[n], b, s.hist.counted[n]);
    WinLogStep(s, n, b, h);
    assert s.net - multiset{} + multiset{} == s.net;
    SameLogInv(System(s.nodes[n := b], s.net - multiset{} + multiset{}, h), AfterWin(s, n));
  }

  lemma WinLogStep(s: System, n: NodeId, b: Raft, h: History)
    requires Shape(s) && LogInv(s) && n in s.nodes && s.nodes[n].term !in s.hist.termLog
    requires b == BecomeLeader(s.nodes[n]) && h == RecordElection(s.hist, n, s.nodes[n], b, s.hist.counted[n])
    ensures LogInv(System(s.nodes[n := b], s.net - multiset{} + multiset{}, h))
  {
    WinNode(s.nodes[n], s.hist, s.hist.counted[n]);
    GrowApplied(s.hist, h);
    OthersKeep(s, n, b.log, h);
    LogStep(s, n, b, multiset{}, multiset{}, h);
  }

  /** Opening the log of a fresh term is not seen by the other nodes. */
  lemma OthersKeep(s: System, n: NodeId, log: Log, h: History)
    requires NodesOk(s) && n in s.nodes && s.nodes[n].term !in s.hist.termLog
    requires h.termLog == s.hist.termLog[s.nodes[n].term := log] && h.epoch == s.hist.epoch[n := s.nodes[n].term]
    ensures forall m :: m in s.nodes && m != n && m in s.hist.epoch ==> m in h.epoch && h.epoch[m] == s.hist.epoch[m]
    ensures forall m :: m in s.nodes && m != n && s.nodes[m].role == Leader ==>
              s.nodes[m].term in s.hist.termLog && h.termLog[s.nodes[m].term] == s.hist.termLog[s.nodes[m].term]
  {
    forall m | m in s.nodes && m != n && s.nodes[m].role == Leader
      ensures s.nodes[m].term in s.hist.termLog && h.termLog[s.nodes[m].term] == s.hist.termLog[s.nodes[m].term]
    {
      assert NodeLogOk(s.nodes[m], s.hist);
    }
  }

  lemma CountKeepsLogs(s: System, p: Packet)
    requires Shape(s) && LogInv(s) && p.dst in s.nodes && p.msg.ResponseVote? && CountsVote(s.nodes[p.dst], p.msg)
    ensures LogInv(AfterCount(s, p))
  {
    var a := s.nodes[p.dst];
    var h := s.hist.(counted := s.hist.counted[p.dst := s.hist.counted[p.dst] + {p.src}]);
    assert NodeLogOk(a, s.hist);
    GrowApplied(s.hist, h);
    LogQuietStep(s, p.dst, a.(votesCount := a.votesCount + 1), multiset{p}, multiset{}, h);
    assert s.net - multiset{p} + multiset{} == s.net - multiset{p};
  }

  lemma ResponseKeepsLogs(s: System, p: Packet)
    requires ElectionInv(s) && LogInv(s) && p in s.net && p.dst in s.nodes && p.msg.ResponseVote?
    ensures LogInv(AfterDelivery(s, p))
  {
    if CountsVote(s.nodes[p.dst], p.msg) {
      var u := AfterCount(s, p);
      CountStep(s, p);
      CountKeepsLogs(s, p);
      CountThenWin(s, p);
      if Majority(u.nodes[p.dst], u.nodes[p.dst].votesCount) {
        FreshTerm(u, p.dst);
        WinKeepsLogs(u, p.dst);
      }
    } else {
      assert NodeLogOk(s.nodes[p.dst], s.hist);
      LogQuietStep(s, p.dst, s.nodes[p.dst], multiset{p}, multiset{}, s.hist);
      assert OnResponseVote(s.nodes[p.dst], p.msg) == s.nodes[p.dst];
    }
  }

  lemma CandidacyKeepsLogs(s: System, n: NodeId)
    requires Shape(s) && LogInv(s) && n in s.nodes
    ensures LogInv(AfterCandidacy(s, n))
  {
    var a := s.nodes[n];
    var c := StartCandidacy(a);
    var out := Broadcast(c, RequestVote(c.term, LastIdx(c.log), LastTerm(c.log)));
    var h := AfterCandidacy(s, n).hist;
    assert NodeLogOk(a, s.hist);
    GrowApplied(s.hist, h);
    LogQuietStep(s, n, c, multiset{}, out, h);
    assert s.net - multiset{} + out == s.net + out;
  }

  lemma TimeoutKeepsLogs(s: System, n: NodeId)
    requires ElectionInv(s) && LogInv(s) && n in s.nodes && s.nodes[n].role != Leader
    ensures LogInv(AfterTimeout(s, n))
  {
    var u := AfterCandidacy(s, n);
    CandidacyStep(s, n);
    CandidacyKeepsLogs(s, n);
    CandidacyThenWin(s, n);
    if Majority(u.nodes[n], 1) {
      FreshTerm(u, n);
      WinKeepsLogs(u, n);
    }
  }

  // ------------------------------------------------------------ follower's side

  /** An accepted append leaves the follower with a piece of the leader's log. */
  lemma SplicedPiece(r: Raft, h: History, msg: Message)
    requires NodeLogOk(r, h) && TermLogsOk(h) && msg.AppendEntries? && PacketOk(h, msg) && Attaches(r.log, msg.prev)
    ensures var log := Spliced(r.log, msg.prev.value, msg.entries);
            Agree(log, h.termLog[msg.term], |log|) && Anchored(log, h.termLog)
  {
    var prev := msg.prev.value;
    var whole := h.termLog[msg.term];
    var log := Spliced(r.log, prev, msg.entries);
    assert EntriesFrom(r.log, prev.idx)[0] == r.log[prev.idx - 1];
    SharedTermAgrees(r.log, whole, prev.idx - 1, h.termLog);
    assert log == r.log[..prev.idx] + msg.entries;
    forall j | 0 <= j < |log| ensures log[j] == whole[j] {
      if j >= prev.idx {
        assert msg.entries[j - prev.idx] == whole[prev.idx + (j - prev.idx)];
      }
    }
    PieceAnchored(log, whole, h.termLog);
  }

  lemma AcceptedAppend(r: Raft, h: History, src: NodeId, msg: Message)
    requires NodeLogOk(r, h) && TermLogsOk(h) && PacketOk(h, msg) && Accepts(r, msg)
    ensures NodeLogOk(OnAppendEntries(r, src, msg).0, h.(epoch := h.epoch[r.id := msg.term]))
    ensures forall p :: p in OnAppendEntries(r, src, msg).1 ==> PacketOk(h, p.msg)
  {
    SplicedPiece(r, h, msg);
  }

  /** A refused append asks for an index of at least 2, since every log holds
      the same first entry. */
  lemma RefusedAppend(r: Raft, h: History, src: NodeId, msg: Message)
    requires NodeLogOk(r, h) && TermLogsOk(h) && PacketOk(h, msg) && msg.AppendEntries? && !Accepts(r, msg)
    ensures forall p :: p in OnAppendEntries(r, src, msg).1 ==> PacketOk(h, p.msg)
    ensures var b := OnAppendEntries(r, src, msg).0;
            b.id == r.id && b.log == r.log && b.nextIndex == r.nextIndex && b.commitIndex == r.commitIndex
            && (b.role == Follower || b == r)
  {
    if msg.prev.Some? && EntriesFrom(r.log, msg.prev.value.idx) != [] {
      assert WellFormedLog(h.termLog[msg.term]) by {
        assert Anchored(h.termLog[msg.term], h.termLog);
      }
    }
  }

  lemma AppendKeepsLogs(s: System, p: Packet)
    requires Shape(s) && LogInv(s) && p in s.net && p.dst in s.nodes && IsAppend(p.msg)
    ensures LogInv(AfterDelivery(s, p))
  {
    var r := s.nodes[p.dst];
    assert NodeLogOk(r, s.hist) && PacketOk(s.hist, p.msg);
    var (b, out) := OnAppendEntries(r, p.src, p.msg);
    if Accepts(r, p.msg) {
      var h := s.hist.(epoch := s.hist.epoch[r.id := p.msg.term]);
      AcceptedAppend(r, s.hist, p.src, p.msg);
      GrowApplied(s.hist, h);
      LogStep(s, p.dst, b, multiset{p}, out, h);
    } else {
      RefusedAppend(r, s.hist, p.src, p.msg);
      LogQuietStep(s, p.dst, b, multiset{p}, out, s.hist);
    }
  }

  // ------------------------------------------------------------ remaining steps

  lemma RequestKeepsLogs(s: System, p: Packet)
    requires Shape(s) && LogInv(s) && p in s.net && p.dst in s.nodes && p.msg.RequestVote?
    ensures LogInv(AfterDelivery(s, p))
  {
    var r := s.nodes[p.dst];
    var (b, out) := OnRequestVote(r, p.src, p.msg);
    var h := RecordReceive(s.hist, r, p.src, p.msg);
    assert NodeLogOk(r, s.hist);
    GrowApplied(s.hist, h);
    LogQuietStep(s, p.dst, b, multiset{p}, out, h);
  }

  lemma NextNodeIdxKeepsLogs(s: System, p: Packet)
    requires Shape(s) && LogInv(s) && p in s.net && p.dst in s.nodes && p.msg.NextNodeIdx?
    ensures LogInv(AfterDelivery(s, p))
  {
    var r := s.nodes[p.dst];
    var b := OnNextNodeIdx(r, p.src, p.msg);
    assert NodeLogOk(r, s.hist) && PacketOk(s.hist, p.msg);
    LogQuietStep(s, p.dst, b, multiset{p}, multiset{}, s.hist);
    assert AfterDelivery(s, p) == System(s.nodes[p.dst := b], s.net - multiset{p} + multiset{}, s.hist);
  }

  lemma LocalKeepsLogs(s: System, n: NodeId, b: Raft)
    requires Shape(s) && LogInv(s) && n in s.nodes
    requires b.id == n && b.log == s.nodes[n].log && NextOk(b) && b.commitIndex <= |b.log|
    requires b.role == Leader ==> s.nodes[n].role == Leader && b.term == s.nodes[n].term
    requires b.role == Candidate ==> b.term > 0
    ensures LogInv(System(s.nodes[n := b], s.net, s.hist))
  {
    LogQuietStep(s, n, b, multiset{}, multiset{}, s.hist);
    assert s.net - multiset{} + multiset{} == s.net;
  }

  lemma DropKeepsLogs(s: System, p: Packet)
    requires LogInv(s) && p in s.net
    ensures LogInv(s.(net := s.net - multiset{p}))
  {
  }

  /** What a node applies is what its epoch's leader has at that index. */
  lemma AppliedEntriesOk(r: Raft, h: History)
    requires NodeLogOk(r, h) && AppliedOk(h) && r.id in h.applied
    ensures AppliedOk(RecordApply(h, r))
  {
    var g := RecordApply(h, r);
    forall n, i | n in g.applied && 0 <= i < |g.applied[n]| ensures ApplicationOk(g.applied[n][i], g) {
      if n == r.id {
        AppliedEntryOk(r, h, i);
      } else {
        assert ApplicationOk(h.applied[n][i], h);
      }
    }
  }

  lemma AppliedEntryOk(r: Raft, h: History, i: nat)
    requires NodeLogOk(r, h) && AppliedOk(h) && r.id in h.applied && i < |RecordApply(h, r).applied[r.id]|
    ensures ApplicationOk(RecordApply(h, r).applied[r.id][i], h)
  {
    RecordedAt(h, r, i);
    if i < |h.applied[r.id]| {
      assert ApplicationOk(h.applied[r.id][i], h);
    } else {
      ExecutedLogged(r, i - |h.applied[r.id]|);
      LoggedOk(r, h, Executed(Unapplied(r), r.selfVer)[i - |h.applied[r.id]|]);
    }
  }

  lemma RecordedAt(h: History, r: Raft, i: nat)
    requires |r.log| > 0 && r.id in h.epoch && r.id in h.applied && i < |RecordApply(h, r).applied[r.id]|
    ensures var es, n := Executed(Unapplied(r), r.selfVer), |h.applied[r.id]|;
            && i < n + |es|
            && RecordApply(h, r).applied[r.id][i] == if i < n then h.applied[r.id][i] else Application(es[i - n], h.epoch[r.id])
  {
  }

  lemma LoggedOk(r: Raft, h: History, e: Entry)
    requires NodeLogOk(r, h) && e in r.log
    ensures ApplicationOk(Application(e, h.epoch[r.id]), h)
  {
    var j :| 0 <= j < |r.log| && r.log[j] == e;
    assert h.termLog[h.epoch[r.id]][j] == e;
  }

  lemma ExecutedLogged(r: Raft, k: nat)
    requires |r.log| > 0 && k < |Executed(Unapplied(r), r.selfVer)|
    ensures Executed(Unapplied(r), r.selfVer)[k] in r.log
  {
    var es := Unapplied(r);
    assert Executed(es, r.selfVer)[k] in Executed(es, r.selfVer);
    assert forall e :: e in es ==> e in r.log;
  }

  lemma ApplyKeepsLogs(s: System, n: NodeId)
    requires Shape(s) && LogInv(s) && n in s.nodes
    ensures LogInv(AfterApply(s, n))
  {
    assert NodeLogOk(s.nodes[n], s.hist);
    AppliedEntriesOk(s.nodes[n], s.hist);
    LogQuietStep(s, n, ApplyCommitted(s.nodes[n]), multiset{}, multiset{}, RecordApply(s.hist, s.nodes[n]));
    assert s.net - multiset{} + multiset{} == s.net;
  }

  lemma CommitInLog(r: Raft, h: History, c: nat)
    requires NodeLogOk(r, h) && CommitsTo(r, c)
    ensures c <= |r.log|
  {
  }

  lemma DeliveryKeepsLogs(s: System, p: Packet)
    requires ElectionInv(s) && LogInv(s) && p in s.net && p.dst in s.nodes
    ensures LogInv(AfterDelivery(s, p))
  {
    match p.msg
    case RequestVote(_, _, _) => RequestKeepsLogs(s, p);
    case ResponseVote(_) => ResponseKeepsLogs(s, p);
    case AppendEntries(_, _, _, _) => AppendKeepsLogs(s, p);
    case EmptySnapshot(_, _) => AppendKeepsLogs(s, p);
    case NextNodeIdx(_, _, _) => NextNodeIdxKeepsLogs(s, p);
  }

  lemma StepKeepsLogs(s: System, step: Step)
    requires ElectionInv(s) && LogInv(s) && Enabled(s, step)
    ensures LogInv(Next(s, step))
  {
    match step
    case Timeout(n) => TimeoutKeepsLogs(s, n);
    case Deliver(p) => DeliveryKeepsLogs(s, p);
    case Drop(p) => DropKeepsLogs(s, p);
    case AppendCommand(n, cmd) => CommandKeepsLogs(s, n, cmd);
    case SendTo(n, peer, batch) => SendKeepsLogs(s, n, peer, batch);
    case AdvanceCommit(n, commit) =>
      assert NodeLogOk(s.nodes[n], s.hist);
      CommitInLog(s.nodes[n], s.hist, commit);
      LocalKeepsLogs(s, n, s.nodes[n].(commitIndex := commit));
    case LoseMajority(n) =>
      assert NodeLogOk(s.nodes[n], s.hist);
      LocalKeepsLogs(s, n, StepDown(s.nodes[n]));
    case Apply(n) => ApplyKeepsLogs(s, n);
  }

  lemma StepsKeepLogs(s: System, t: System)
    requires ElectionInv(s) && LogInv(s) && Steps(s, t)
    ensures LogInv(t)
  {
    var step :| Enabled(s, step) && t == Next(s, step);
    StepKeepsLogs(s, step);
  }

  lemma LogInvAt(states: seq<System>, i: nat)
    requires Run(states) && 0 < i < |states| && ElectionInv(states[i - 1]) && LogInv(states[i - 1])
    ensures LogInv(states[i])
  {
    RunSteps(states, i);
    StepsKeepLogs(states[i - 1], states[i]);
  }

  lemma {:induction false} RunKeepsLogs(states: seq<System>, i: nat)
    requires Run(states) && i < |states|
    ensures ElectionInv(states[i]) && LogInv(states[i])
  {
    RunKeeps(states, i);
    if i == 0 {
      LogInvInit(states[0]);
    } else {
      RunKeepsLogs(states, i - 1);
      LogInvAt(states, i);
    }
  }

  // ------------------------------------------------------------- main results

  /** Log Matching: two logs that hold an entry of the same term at the same
      index are identical up to that index. */
  lemma LogMatching(states: seq<System>, i: nat, m: NodeId, n: NodeId, k: nat)
    requires Run(states) && i < |states| && m in states[i].nodes && n in states[i].nodes
    requires k < |states[i].nodes[m].log| && k < |states[i].nodes[n].log|
    requires states[i].nodes[m].log[k].term == states[i].nodes[n].log[k].term
    ensures states[i].nodes[m].log[..k + 1] == states[i].nodes[n].log[..k + 1]
  {
    RunAnchored(states, i, m);
    RunAnchored(states, i, n);
    SharedTermAgrees(states[i].nodes[m].log, states[i].nodes[n].log, k, states[i].hist.termLog);
  }

  lemma RunAnchored(states: seq<System>, i: nat, n: NodeId)
    requires Run(states) && i < |states| && n in states[i].nodes
    ensures Anchored(states[i].nodes[n].log, states[i].hist.termLog)
  {
    RunKeepsLogs(states, i);
    assert NodeLogOk(states[i].nodes[n], states[i].hist);
  }

  /** The log of a leader in office is the log of its term, and every other
      node's whole log is a prefix of the log of the term whose append it
      accepted last. */
  lemma WholeLogIsPrefix(states: seq<System>, i: nat, n: NodeId)
    requires Run(states) && i < |states| && n in states[i].nodes
    ensures var s := states[i];
            && n in s.hist.epoch && s.hist.epoch[n] in s.hist.termLog
            && s.nodes[n].log <= s.hist.termLog[s.hist.epoch[n]]
            && (s.nodes[n].role == Leader ==>
                  s.hist.epoch[n] == s.nodes[n].term && s.nodes[n].log == s.hist.termLog[s.nodes[n].term])
  {
    RunKeepsLogs(states, i);
    assert NodeLogOk(states[i].nodes[n], states[i].hist);
  }

  /** In-term agreement: nodes that apply the same index in the same epoch, the
      leader of that term included, apply the same entry. */
  lemma InTermAgreement(states: seq<System>, i: nat, m: NodeId, n: NodeId, j: nat, k: nat)
    requires Run(states) && i < |states|
    requires m in states[i].hist.applied && j < |states[i].hist.applied[m]|
    requires n in states[i].hist.applied && k < |states[i].hist.applied[n]|
    requires states[i].hist.applied[m][j].epoch == states[i].hist.applied[n][k].epoch
    requires states[i].hist.applied[m][j].entry.idx == states[i].hist.applied[n][k].entry.idx
    ensures states[i].hist.applied[m][j].entry == states[i].hist.applied[n][k].entry
  {
    RunApplication(states, i, m, j);
    RunApplication(states, i, n, k);
  }

  lemma RunApplication(states: seq<System>, i: nat, n: NodeId, k: nat)
    requires Run(states) && i < |states| && n in states[i].hist.applied && k < |states[i].hist.applied[n]|
    ensures ApplicationOk(states[i].hist.applied[n][k], states[i].hist)
  {
    RunKeepsLogs(states, i);
  }

  /** While compaction is off no snapshot message is ever sent: every next index
      is at least 2. */
  lemma NoSnapshotMessages(states: seq<System>, i: nat, p: Packet)
    requires Run(states) && i < |states| && p in states[i].net
    ensures !p.msg.EmptySnapshot?
  {
    RunKeepsLogs(states, i);
    assert PacketOk(states[i].hist, p.msg);
  }
}
