/** A node as the object its handlers update in place: the fields for elections,
    replication and commands, and methods proved against RaftProtocol and
    RaftClient. */
module RaftNode {
  import opened Lists
  import opened Options
  import opened RaftTypes
  import opened RaftProtocol
  import opened RaftClient
  import opened RaftRounds
  import opened RaftCalls

  class RaftNode {
    const self: NodeId
    const nodes: seq<NodeId>
    const selfVer: nat
    var role: Role
    var currentTerm: nat
    var votedFor: Option<NodeId>
    var votesCount: nat
    var leader: Option<NodeId>
    var raftLog: seq<Entry>
    var commitIndex: nat
    var lastApplied: nat
    var nextIndex: map<NodeId, nat>
    var matchIndex: map<NodeId, int>
    var commandsQueue: seq<Request>
    var localCounter: nat
    var waitingReply: map<nat, Callback>
    var waitingCommit: map<nat, seq<Waiting>>
    var fired: seq<Fired>

    ghost function View(): Raft
      reads this
    {
      Raft(self, PeerSet(nodes), selfVer, role, currentTerm, votedFor, votesCount, leader, raftLog, commitIndex,
           lastApplied, nextIndex, matchIndex)
    }

    ghost function ClientView(): Client
      reads this
    {
      Client(commandsQueue, localCounter, waitingReply, waitingCommit, fired)
    }

    ghost predicate Valid()
      reads this
    {
      Distinct(nodes) && |raftLog| > 0
    }

    /** Every peer has a match index, as set when the node starts and whenever it
        becomes leader. */
    ghost predicate PeersTracked()
      reads this
    {
      forall k :: 0 <= k < |nodes| ==> nodes[k] in matchIndex
    }

    constructor (self: NodeId, nodes: seq<NodeId>, selfVer: nat)
      requires Distinct(nodes)
      ensures Valid() && PeersTracked() && this.nodes == nodes
      ensures View() == InitialRaft(self, PeerSet(nodes), selfVer)
      ensures ClientView() == FRESH_CLIENT
    {
      this.self, this.nodes, this.selfVer := self, nodes, selfVer;
      role, currentTerm, votedFor, votesCount, leader := Follower, 0, None, 0, None;
      raftLog, commitIndex, lastApplied, nextIndex, matchIndex := [Entry(NoOp, 1, 0)], 1, 1, map[], map[];
      commandsQueue, localCounter, waitingReply, waitingCommit, fired := [], 0, map[], map[], [];
      new;
      ResetIndexes(raftLog[|raftLog| - 1].idx + 1);
      assert nextIndex == InitialRaft(self, PeerSet(nodes), selfVer).nextIndex;
      assert matchIndex == InitialRaft(self, PeerSet(nodes), selfVer).matchIndex;
    }

    // ------------------------------------------------------------------ election

    method ResetIndexes(next: nat)
      modifies this`nextIndex, this`matchIndex
      ensures nextIndex == old(nextIndex) + AllTo(PeerSet(nodes), next)
      ensures matchIndex == old(matchIndex) + AllTo(PeerSet(nodes), 0) && PeersTracked()
      ensures Restarts(nodes, nextIndex, matchIndex, next)
    {
      var i := 0;
      while i < |nodes|
        invariant i <= |nodes|
        invariant nextIndex == old(nextIndex) + AllTo(PeerSet(nodes[..i]), next)
        invariant matchIndex == old(matchIndex) + AllTo(PeerSet(nodes[..i]), 0)
      {
        AllToNext(old(nextIndex), nodes, i, next);
        AllToNext(old(matchIndex), nodes, i, 0);
        nextIndex := nextIndex[nodes[i] := next];
        matchIndex := matchIndex[nodes[i] := 0];
        i := i + 1;
      }
      assert nodes[..i] == nodes;
      AllRestart(old(nextIndex), old(matchIndex), nodes, next);
    }

    method OnBecomeLeader()
      requires Valid()
      modifies this`leader, this`role, this`nextIndex, this`matchIndex, this`raftLog
      ensures View() == BecomeLeader(old(View())) && PeersTracked()
      ensures role == Leader && leader == Some(self)
      ensures Restarts(nodes, nextIndex, matchIndex, LastIdx(old(raftLog)) + 1)
    {
      ghost var r := View();
      leader := Some(self);
      role := Leader;
      var next := raftLog[|raftLog| - 1].idx + 1;
      ResetIndexes(next);
      assert PeerSet(nodes) == r.peers;
      raftLog := raftLog + [Entry(NoOp, next, currentTerm)];
      BecomeLeaderIs(r, View());
    }

    method SendToAll(msg: Message) returns (out: multiset<Packet>)
      requires Valid()
      ensures out == Broadcast(View(), msg)
    {
      out := multiset{};
      var i := 0;
      while i < |nodes|
        invariant i <= |nodes|
        invariant out == Packets(self, PeerSet(nodes[..i]), msg)
      {
        out := out + multiset{Packet(self, nodes[i], msg)};
        PacketsNext(self, nodes, i, msg);
        i := i + 1;
      }
      assert nodes[..i] == nodes;
    }

    method BecomeCandidate()
      modifies this`leader, this`role, this`currentTerm, this`votedFor, this`votesCount
      ensures View() == StartCandidacy(old(View()))
    {
      leader := None;
      role := Candidate;
      currentTerm := currentTerm + 1;
      votedFor := Some(self);
      votesCount := 1;
    }

    method LeadIfMajority()
      requires Valid()
      modifies this`leader, this`role, this`nextIndex, this`matchIndex, this`raftLog
      ensures Valid() && View() == ElectIfMajority(old(View()))
    {
      PeerCount(nodes);
      if 2 * votesCount > |nodes| + 1 {
        OnBecomeLeader();
      }
    }

    /** The election deadline has passed. */
    method OnElectionTimeout() returns (out: multiset<Packet>)
      requires Valid() && role != Leader
      modifies this`leader, this`role, this`currentTerm, this`votedFor, this`votesCount
      modifies this`nextIndex, this`matchIndex, this`raftLog, this`waitingReply, this`fired
      ensures Valid() && (View(), out) == StartElection(old(View()))
      ensures ClientView() == OnLeaderChanged(old(ClientView()))
    {
      BecomeCandidate();
      out := SendToAll(RequestVote(currentTerm, raftLog[|raftLog| - 1].idx, raftLog[|raftLog| - 1].term));
      FailWaiting();
      LeadIfMajority();
    }

    method OnRequestVoteMessage(src: NodeId, msg: Message) returns (out: multiset<Packet>)
      requires Valid() && msg.RequestVote?
      modifies this`currentTerm, this`votedFor, this`role, this`leader
      ensures (View(), out) == OnRequestVote(old(View()), src, msg)
    {
      out := multiset{};
      if msg.term > currentTerm {
        currentTerm := msg.term;
        votedFor := None;
        role := Follower;
        leader := None;
      }
      if role == Follower || role == Candidate {
        var last := raftLog[|raftLog| - 1];
        if msg.term >= currentTerm {
          if msg.lastTerm < last.term {
            return;
          }
          if msg.lastTerm == last.term && msg.lastIdx < last.idx {
            return;
          }
          if votedFor.Some? {
            return;
          }
          votedFor := Some(src);
          out := multiset{Packet(self, src, ResponseVote(msg.term))};
        }
      }
    }

    method OnResponseVoteMessage(msg: Message)
      requires Valid() && msg.ResponseVote?
      modifies this`votesCount, this`leader, this`role, this`nextIndex, this`matchIndex, this`raftLog
      ensures Valid() && View() == OnResponseVote(old(View()), msg)
    {
      if role == Candidate && msg.term == currentTerm {
        votesCount := votesCount + 1;
        LeadIfMajority();
      }
    }

    // --------------------------------------------------------------- replication

    method GetEntries(fromIdx: nat) returns (es: seq<Entry>)
      requires Valid()
      ensures es == EntriesFrom(raftLog, fromIdx)
    {
      if fromIdx < raftLog[0].idx {
        return [];
      }
      var diff := fromIdx - raftLog[0].idx;
      return if diff < |raftLog| then raftLog[diff..] else [];
    }

    /** Entries up to and including the one that reaches the byte limit. */
    method GetBatch(fromIdx: nat, size: Entry -> nat, limit: nat) returns (es: seq<Entry>)
      requires Valid() && EntriesFrom(raftLog, fromIdx) != []
      ensures 1 <= |es| && es == Take(EntriesFrom(raftLog, fromIdx), |es|)
      ensures |es| == |EntriesFrom(raftLog, fromIdx)| || TotalSize(es, size) >= limit
      ensures TotalSize(es[..|es| - 1], size) < limit || |es| == 1
    {
      var result := GetEntries(fromIdx);
      var total, i := 0, 0;
      while i < |result|
        invariant i <= |result| && total == TotalSize(result[..i], size)
        invariant i > 0 ==> total < limit
      {
        total := total + size(result[i]);
        assert result[..i + 1][..i] == result[..i];
        i := i + 1;
        if total >= limit {
          break;
        }
      }
      es := result[..i];
      assert es[..|es| - 1] == result[..|es| - 1];
    }

    method GetPrev(next: nat) returns (prev: Option<Prev>)
      requires Valid() && next > 0
      ensures prev == PrevOf(raftLog, next)
    {
      var es := GetEntries(next - 1);
      prev := if es != [] then Some(Prev(next - 1, es[0].term)) else None;
    }

    /** The sending loop for one peer. The sending period lets it go round at most
        `patience` times, once at least; it ends early only when the peer has been
        sent the whole log. */
    method SendAppendEntries(peer: NodeId, size: Entry -> nat, limit: nat, patience: nat)
        returns (out: multiset<Packet>, ghost rounds: seq<nat>)
      requires Valid() && WellFormedLog(raftLog) && peer in nextIndex
      modifies this`nextIndex
      ensures (View(), out) == SendRounds(old(View()), peer, rounds)
      ensures peer in nextIndex && 1 <= |rounds| && forall i :: 0 <= i < |rounds| ==> rounds[i] > 0
      ensures |rounds| < patience ==> nextIndex[peer] > LastIdx(raftLog)
      ensures |rounds| <= if patience > 0 then patience else 1
    {
      out, rounds := multiset{}, [];
      var turns, sendSingle, late := 0, true, false;
      while (nextIndex[peer] <= raftLog[|raftLog| - 1].idx || sendSingle) && !late
        invariant peer in nextIndex && (View(), out) == SendRounds(old(View()), peer, rounds)
        invariant turns == |rounds| && (sendSingle <==> rounds == [])
        invariant forall i :: 0 <= i < |rounds| ==> rounds[i] > 0
        invariant late <==> rounds != [] && |rounds| >= patience
        invariant |rounds| <= if patience > 0 then patience else 1
        decreases (if patience > 0 then patience else 1) - |rounds|
      {
        var p, batch := SendOne(peer, size, limit);
        RoundNext(old(View()), peer, rounds, batch);
        out := out + multiset{p};
        rounds := rounds + [batch];
        sendSingle := false;
        turns := turns + 1;
        late := turns >= patience;
      }
    }

    /** What is left to send, as far as the byte limit lets it through. */
    method NextBatch(next: nat, size: Entry -> nat, limit: nat) returns (entries: seq<Entry>, batch: nat)
      requires Valid() && WellFormedLog(raftLog) && next > raftLog[0].idx
      ensures batch > 0 && entries == Take(EntriesFrom(raftLog, next), batch)
    {
      entries, batch := [], 1;
      PastTheEnd(raftLog, next);
      if next <= raftLog[|raftLog| - 1].idx {
        entries := GetBatch(next, size, limit);
        batch := |entries|;
      }
    }

    method SendOne(peer: NodeId, size: Entry -> nat, limit: nat) returns (p: Packet, batch: nat)
      requires Valid() && WellFormedLog(raftLog) && peer in nextIndex
      modifies this`nextIndex
      ensures batch > 0 && (View(), p) == SendAppend(old(View()), peer, batch) && peer in nextIndex
    {
      var next := nextIndex[peer];
      batch := 1;
      if next > raftLog[0].idx {
        var prev := GetPrev(next);
        var entries;
        entries, batch := NextBatch(next, size, limit);
        if entries != [] {
          nextIndex := nextIndex[peer := entries[|entries| - 1].idx + 1];
        }
        p := Packet(self, peer, AppendEntries(currentTerm, commitIndex, prev, entries));
      } else {
        p := Packet(self, peer, EmptySnapshot(currentTerm, commitIndex));
      }
    }

    method DeleteEntriesFrom(fromIdx: nat)
      requires Valid() && fromIdx > raftLog[0].idx && fromIdx - raftLog[0].idx <= |raftLog|
      modifies this`raftLog
      ensures raftLog == old(raftLog)[..fromIdx - old(raftLog)[0].idx]
    {
      raftLog := raftLog[..fromIdx - raftLog[0].idx];
    }

    method AddAll(entries: seq<Entry>)
      modifies this`raftLog
      ensures raftLog == old(raftLog) + entries
    {
      var i := 0;
      while i < |entries|
        invariant i <= |entries| && raftLog == old(raftLog) + entries[..i]
      {
        raftLog := raftLog + [entries[i]];
        i := i + 1;
      }
      assert entries[..i] == entries;
    }

    method FollowSender(src: NodeId, term: nat)
      requires term >= currentTerm
      modifies this`leader, this`currentTerm, this`votedFor, this`role, this`waitingReply, this`fired
      ensures View() == FollowLeader(old(View()), src, term)
      ensures ClientView() == if old(leader) != Some(src) then OnLeaderChanged(old(ClientView())) else old(ClientView())
    {
      if leader != Some(src) {
        FailWaiting();
      }
      leader := Some(src);
      if term > currentTerm {
        currentTerm := term;
        votedFor := None;
      }
      role := Follower;
    }

    /** Everything behind the entry that the new ones attach to is dropped, even
        if it agrees with them. */
    method Splice(prev: Prev, entries: seq<Entry>)
      requires Valid() && Attaches(raftLog, Some(prev))
      modifies this`raftLog
      ensures raftLog == Spliced(old(raftLog), prev, entries)
    {
      var prevEntries := GetEntries(prev.idx);
      if |prevEntries| > 1 {
        DeleteEntriesFrom(prev.idx + 1);
      }
      assert raftLog == old(raftLog)[..prev.idx + 1 - old(raftLog)[0].idx];
      AddAll(entries);
    }

    method OnAppendEntriesMessage(src: NodeId, msg: Message) returns (out: multiset<Packet>)
      requires Valid() && IsAppend(msg)
      modifies this`leader, this`currentTerm, this`votedFor, this`role, this`raftLog, this`commitIndex
      modifies this`waitingReply, this`fired
      ensures Valid() && (View(), out) == OnAppendEntries(old(View()), src, msg)
      ensures msg.term < old(currentTerm) ==> View() == old(View()) && out == multiset{}
      ensures msg.term >= old(currentTerm) ==>
                && currentTerm == msg.term && role == Follower && leader == Some(src)
                && votedFor == if msg.term > old(currentTerm) then None else old(votedFor)
      ensures ClientView() == if msg.term >= old(currentTerm) && old(leader) != Some(src) then OnLeaderChanged(old(ClientView()))
                              else old(ClientView())
    {
      if msg.term < currentTerm {
        return multiset{};
      }
      FollowSender(src, msg.term);
      if msg.AppendEntries? {
        out := TakeEntries(src, msg);
      } else {
        FollowCommit(msg.commitIndex);
        out := multiset{};
      }
    }

    method FollowCommit(leaderCommit: nat)
      requires Valid()
      modifies this`commitIndex
      ensures commitIndex == Min(leaderCommit, LastIdx(raftLog))
    {
      var last := raftLog[|raftLog| - 1].idx;
      commitIndex := if leaderCommit < last then leaderCommit else last;
    }

    /** A regular append, once its sender is the leader. */
    method TakeEntries(src: NodeId, msg: Message) returns (out: multiset<Packet>)
      requires Valid() && msg.AppendEntries?
      modifies this`raftLog, this`commitIndex
      ensures Valid()
      ensures (View(), out) == TakenEntries(old(View()), src, msg)
    {
      var last := raftLog[|raftLog| - 1].idx;
      if msg.prev.None? {
        return multiset{Packet(self, src, NextNodeIdx(last + 1, true, false))};
      }
      var prev := msg.prev.value;
      var prevEntries := GetEntries(prev.idx);
      if prevEntries == [] {
        return multiset{Packet(self, src, NextNodeIdx(last + 1, true, false))};
      }
      if prevEntries[0].term != prev.term {
        return multiset{Packet(self, src, NextNodeIdx(prev.idx, true, false))};
      }
      Splice(prev, msg.entries);
      var next := if msg.entries != [] then msg.entries[|msg.entries| - 1].idx else prev.idx + 1;
      FollowCommit(msg.commitIndex);
      out := multiset{Packet(self, src, NextNodeIdx(next, false, true))};
    }

    method OnNextNodeIdxMessage(src: NodeId, msg: Message)
      requires msg.NextNodeIdx?
      modifies this`nextIndex, this`matchIndex
      ensures View() == OnNextNodeIdx(old(View()), src, msg)
      ensures nextIndex == if role == Leader && msg.reset then old(nextIndex)[src := msg.next] else old(nextIndex)
      ensures matchIndex == if role == Leader && msg.success then old(matchIndex)[src := msg.next - 1] else old(matchIndex)
      ensures old(PeersTracked()) ==> PeersTracked()
    {
      if role == Leader {
        if msg.reset {
          nextIndex := nextIndex[src := msg.next];
        }
        if msg.success {
          matchIndex := matchIndex[src := msg.next - 1];
        }
      }
    }

    // ---------------------------------------------------------- commit and apply

    method CountAckers(index: nat) returns (count: nat)
      requires Valid() && PeersTracked()
      ensures count == |Ackers(View(), index)| + 1
    {
      count := 1;
      var i := 0;
      while i < |nodes|
        invariant i <= |nodes|
        invariant count == |AckersAmong(matchIndex, PeerSet(nodes[..i]), index)| + 1
      {
        AckersNext(matchIndex, nodes, i, index);
        if matchIndex[nodes[i]] >= index {
          count := count + 1;
        }
        i := i + 1;
      }
      assert nodes[..i] == nodes;
      AllAckers(View(), index);
    }

    /** The leader raises its commit index as far as majorities reach. */
    method AdvanceCommit()
      requires Valid() && PeersTracked()
      modifies this`commitIndex
      ensures CommitsTo(old(View()), commitIndex)
      ensures old(commitIndex) <= commitIndex && (commitIndex > old(commitIndex) ==> commitIndex <= LastIdx(raftLog))
      ensures forall i :: old(commitIndex) < i <= commitIndex ==> HeldByMost(old(View()), i)
      ensures commitIndex < LastIdx(raftLog) ==> !HeldByMost(old(View()), commitIndex + 1)
    {
      PeerCount(nodes);
      while commitIndex < raftLog[|raftLog| - 1].idx
        invariant old(commitIndex) <= commitIndex && (commitIndex == old(commitIndex) || commitIndex <= LastIdx(raftLog))
        invariant forall i :: old(commitIndex) < i <= commitIndex ==> Majority(old(View()), |Ackers(old(View()), i)| + 1)
      {
        var next := commitIndex + 1;
        var count := CountAckers(next);
        SameAckers(old(View()), View(), next);
        if 2 * count > |nodes| + 1 {
          commitIndex := next;
        } else {
          break;
        }
      }
      CommitsToIff(old(View()), commitIndex);
    }

    /** Hand the committed entries to the state machine. */
    method ApplyCommittedEntries()
      requires Valid()
      modifies this`lastApplied, this`waitingCommit, this`fired
      ensures View() == ApplyCommitted(old(View()))
      ensures ClientView() == ApplyEntries(old(ClientView()), Unapplied(old(View())), selfVer)
      ensures DueTold(old(ClientView()), ClientView(), old(View()))
    {
      ghost var r, c := View(), ClientView();
      var es := GetUnapplied();
      ApplyAll(es);
      DueCalls(c, r);
    }

    method GetUnapplied() returns (es: seq<Entry>)
      requires Valid()
      ensures es == Unapplied(View())
    {
      es := [];
      if commitIndex > lastApplied {
        es := GetEntries(lastApplied + 1);
        var count := commitIndex - lastApplied;
        es := if count < |es| then es[..count] else es;
      }
    }

    method ApplyAll(es: seq<Entry>)
      modifies this`lastApplied, this`waitingCommit, this`fired
      ensures lastApplied == old(lastApplied) + |Executed(es, selfVer)|
      ensures ClientView() == ApplyEntries(old(ClientView()), es, selfVer)
    {
      var i := 0;
      while i < |es|
        invariant i <= |es|
        invariant lastApplied == old(lastApplied) + |Executed(es[..i], selfVer)|
        invariant ClientView() == ApplyEntries(old(ClientView()), es[..i], selfVer)
      {
        ExecutedNext(es, i, selfVer);
        ApplyNext(old(ClientView()), es, i, selfVer);
        ApplyOne(es[i]);
        i := i + 1;
      }
      assert es[..i] == es;
    }

    /** A command that raises has already lost its subscribers and is not counted. */
    method ApplyOne(entry: Entry)
      modifies this`lastApplied, this`waitingCommit, this`fired
      ensures ClientView() == ApplyEntry(old(ClientView()), entry, selfVer)
      ensures lastApplied == old(lastApplied) + if Supported(entry.cmd, selfVer) then 1 else 0
      ensures old(fired) <= fired
      ensures |fired| == |old(fired)| + if Raises(entry.cmd, selfVer) then 0 else |WaitingAt(old(ClientView()), entry.idx)|
      ensures !Raises(entry.cmd, selfVer) ==> Tells(fired, |old(fired)|, WaitingAt(old(ClientView()), entry.idx), entry)
    {
      EntryCalls(ClientView(), entry, selfVer);
      var subscribers := if entry.idx in waitingCommit then waitingCommit[entry.idx] else [];
      waitingCommit := waitingCommit - {entry.idx};
      if entry.cmd.Version? && entry.cmd.ver > selfVer {
        assert fired + [] == fired;
        return;
      }
      CallSubscribers(subscribers, entry);
      lastApplied := lastApplied + 1;
    }

    method CallSubscribers(subscribers: seq<Waiting>, entry: Entry)
      modifies this`fired
      ensures fired == old(fired) + Notify(subscribers, entry)
    {
      var k := 0;
      while k < |subscribers|
        invariant k <= |subscribers| && fired == old(fired) + Notify(subscribers[..k], entry)
      {
        NotifyNext(subscribers, k, entry);
        fired := fired + [Fired(subscribers[k].cb, if subscribers[k].term == entry.term then Success(entry) else Failure(Discarded))];
        k := k + 1;
      }
      assert subscribers[..k] == subscribers;
    }

    // ----------------------------------------------------------- commands, callbacks

    /** Every callback that waits for a reply, in the order of the request ids. */
    method FailWaiting()
      modifies this`waitingReply, this`fired
      ensures ClientView() == OnLeaderChanged(old(ClientView()))
    {
      LeaderChangedIs(ClientView());
      var ids := WaitingIds(waitingReply, 1, localCounter);
      TellAll(ids);
      waitingReply := map[];
    }

    method TellAll(ids: seq<nat>)
      requires forall k :: 0 <= k < |ids| ==> ids[k] in waitingReply
      modifies this`fired
      ensures fired == old(fired) + Told(waitingReply, ids)
    {
      var i := 0;
      while i < |ids|
        invariant i <= |ids| && fired == old(fired) + Told(waitingReply, ids[..i])
      {
        ToldNext(waitingReply, ids, i);
        fired := fired + [Fired(waitingReply[ids[i]], Failure(LeaderChanged))];
        i := i + 1;
      }
      assert ids[..i] == ids;
    }

    /** A request to run a command enters the queue unless the queue is full. */
    method EnqueueRequest(req: Request, capacity: nat) returns (out: multiset<ClientPacket>)
      modifies this`commandsQueue, this`fired
      ensures (ClientView(), out) == Enqueue(old(ClientView()), View(), req, capacity)
    {
      out := multiset{};
      if |commandsQueue| < capacity {
        commandsQueue := commandsQueue + [req];
      } else {
        out := CallErrCallback(QueueFull, req.origin);
      }
    }

    method CallErrCallback(reason: Reason, origin: Origin) returns (out: multiset<ClientPacket>)
      modifies this`fired
      ensures (ClientView(), out) == Fail(old(ClientView()), View(), origin, reason)
    {
      out := multiset{};
      match origin
      case Silent =>
      case Remote(node, id) => out := Send(node, ApplyResponse(id, Refused(reason)));
      case Local(cb) => fired := fired + [Fired(cb, Failure(reason))];
    }

    /** The first peer with the address gets the message; an unknown address gets
        nothing. */
    method Send(dst: NodeId, msg: ClientMsg) returns (out: multiset<ClientPacket>)
      ensures out == SendTo(View(), dst, msg)
    {
      var i := 0;
      while i < |nodes|
        invariant i <= |nodes| && forall k :: 0 <= k < i ==> nodes[k] != dst
      {
        if nodes[i] == dst {
          return multiset{ClientPacket(self, dst, msg)};
        }
        i := i + 1;
      }
      out := multiset{};
    }

    /** One command of the queue: logged by the leader, forwarded by a follower,
        refused where no leader is known. */
    method ProcessCommand() returns (out: multiset<ClientPacket>)
      requires Valid() && commandsQueue != []
      modifies this`commandsQueue, this`raftLog, this`waitingCommit, this`waitingReply, this`localCounter, this`fired
      ensures Valid() && (ClientView(), View(), out) == Process(old(ClientView()), old(View()))
    {
      var req := commandsQueue[0];
      commandsQueue := commandsQueue[1..];
      if role == Leader {
        out := LogCommand(req);
      } else if leader.Some? {
        out := ForwardCommand(req, leader.value);
      } else {
        out := CallErrCallback(MissingLeader, req.origin);
      }
    }

    method LogCommand(req: Request) returns (out: multiset<ClientPacket>)
      requires Valid()
      modifies this`raftLog, this`waitingCommit
      ensures Valid() && (ClientView(), View(), out) == Lead(old(ClientView()), old(View()), req)
    {
      out := multiset{};
      var idx := raftLog[|raftLog| - 1].idx + 1;
      raftLog := raftLog + [Entry(req.cmd, idx, currentTerm)];
      match req.origin
      case Silent =>
      case Local(cb) =>
        var already := if idx in waitingCommit then waitingCommit[idx] else [];
        waitingCommit := waitingCommit[idx := already + [Waiting(currentTerm, cb)]];
      case Remote(node, id) => out := Send(node, ApplyResponse(id, Placed(idx, currentTerm)));
    }

    method ForwardCommand(req: Request, to: NodeId) returns (out: multiset<ClientPacket>)
      modifies this`waitingReply, this`localCounter, this`fired
      ensures (ClientView(), out) == Forward(old(ClientView()), View(), req, to)
    {
      match req.origin
      case Silent => out := Send(to, ApplyCommand(req.cmd, None));
      case Local(cb) =>
        localCounter := localCounter + 1;
        waitingReply := waitingReply[localCounter := cb];
        out := Send(to, ApplyCommand(req.cmd, Some(localCounter)));
      case Remote(_, _) => out := CallErrCallback(NotLeader, req.origin);
    }

    /** The source asserts that a placed index is not applied yet; where it is, the
        exception leaves the reply table without the callback. */
    method OnApplyResponseMessage(msg: ClientMsg) returns (raised: bool)
      requires msg.ApplyResponse?
      modifies this`waitingReply, this`waitingCommit, this`fired
      ensures ClientView() == OnApplyResponse(old(ClientView()), View(), msg)
      ensures raised <==> msg.reqId in old(waitingReply) && msg.answer.Placed? && msg.answer.idx <= lastApplied
    {
      raised := false;
      if msg.reqId in waitingReply {
        var cb := waitingReply[msg.reqId];
        waitingReply := waitingReply - {msg.reqId};
        match msg.answer
        case Refused(reason) => fired := fired + [Fired(cb, Failure(reason))];
        case Placed(idx, term) =>
          if idx <= lastApplied {
            return true;
          }
          var already := if idx in waitingCommit then waitingCommit[idx] else [];
          waitingCommit := waitingCommit[idx := already + [Waiting(term, cb)]];
      }
    }
  }
}
