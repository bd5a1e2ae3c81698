/** What each handler of the Raft engine does to the fields of one node, as
    functions. The methods of RaftNode are proved against these functions, and
    RaftSystem runs them on a network of nodes. */
module RaftProtocol {
  import opened Options
  import opened RaftTypes

  function InitialRaft(id: NodeId, peers: set<NodeId>, selfVer: nat): Raft {
    Raft(id, peers, selfVer, Follower, 0, None, 0, None, [FIRST_ENTRY], 1, 1,
         map p | p in peers :: 2, map p | p in peers :: 0)
  }

  /** The suffix of the log from index `fromIdx` on; empty when the index lies
      before the first entry or behind the last one. */
  function EntriesFrom(log: Log, fromIdx: nat): (es: seq<Entry>)
    requires |log| > 0
  {
    if fromIdx < log[0].idx || fromIdx - log[0].idx >= |log| then []
    else log[fromIdx - log[0].idx..]
  }

  function Take<T>(s: seq<T>, n: nat): seq<T> {
    if n < |s| then s[..n] else s
  }

  // ---------------------------------------------------------------- election

  function BecomeLeader(r: Raft): Raft
    requires |r.log| > 0
  {
    var next := LastIdx(r.log) + 1;
    r.(leader := Some(r.id), role := Leader,
       nextIndex := r.nextIndex + map p | p in r.peers :: next,
       matchIndex := r.matchIndex + map p | p in r.peers :: 0,
       log := r.log + [Entry(NoOp, next, r.term)])
  }

  function StartCandidacy(r: Raft): Raft {
    r.(leader := None, role := Candidate, term := r.term + 1, votedFor := Some(r.id), votesCount := 1)
  }

  function ElectIfMajority(r: Raft): Raft
    requires |r.log| > 0
  {
    if Majority(r, r.votesCount) then BecomeLeader(r) else r
  }

  function Broadcast(r: Raft, msg: Message): multiset<Packet> {
    multiset(set p | p in r.peers :: Packet(r.id, p, msg))
  }

  /** The election deadline of a follower or candidate has passed. */
  function StartElection(r: Raft): (Raft, multiset<Packet>)
    requires |r.log| > 0
  {
    var c := StartCandidacy(r);
    (ElectIfMajority(c), Broadcast(c, RequestVote(c.term, LastIdx(c.log), LastTerm(c.log))))
  }

  function AdoptTerm(r: Raft, term: nat): Raft {
    if term > r.term then r.(term := term, votedFor := None, role := Follower, leader := None) else r
  }

  /** The candidate's log is at least as new as this node's log. */
  predicate UpToDate(log: Log, lastIdx: nat, lastTerm: nat)
    requires |log| > 0
  {
    lastTerm > LastTerm(log) || (lastTerm == LastTerm(log) && lastIdx >= LastIdx(log))
  }

  predicate GrantsVote(r: Raft, msg: Message)
    requires |r.log| > 0 && msg.RequestVote?
  {
    r.role != Leader && msg.term >= r.term && UpToDate(r.log, msg.lastIdx, msg.lastTerm) && r.votedFor.None?
  }

  function OnRequestVote(r: Raft, src: NodeId, msg: Message): (Raft, multiset<Packet>)
    requires |r.log| > 0 && msg.RequestVote?
  {
    var a := AdoptTerm(r, msg.term);
    if GrantsVote(a, msg) then (a.(votedFor := Some(src)), multiset{Packet(r.id, src, ResponseVote(msg.term))})
    else (a, multiset{})
  }

  predicate CountsVote(r: Raft, msg: Message)
    requires msg.ResponseVote?
  {
    r.role == Candidate && msg.term == r.term
  }

  function OnResponseVote(r: Raft, msg: Message): Raft
    requires |r.log| > 0 && msg.ResponseVote?
  {
    if CountsVote(r, msg) then ElectIfMajority(r.(votesCount := r.votesCount + 1)) else r
  }

  // ------------------------------------------------------------- replication

  function LeaderAppend(r: Raft, cmd: Command): Raft
    requires |r.log| > 0
  {
    r.(log := r.log + [Entry(cmd, LastIdx(r.log) + 1, r.term)])
  }

  function PrevOf(log: Log, next: nat): Option<Prev>
    requires |log| > 0 && next > 0
  {
    var es := EntriesFrom(log, next - 1);
    if es == [] then None else Some(Prev(next - 1, es[0].term))
  }

  /** One round of the sending loop for one peer; `batch` is the number of
      entries that the byte limit lets through. */
  function SendAppend(r: Raft, peer: NodeId, batch: nat): (Raft, Packet)
    requires |r.log| > 0 && peer in r.nextIndex
  {
    var next := r.nextIndex[peer];
    if next > r.log[0].idx then
      var entries := Take(EntriesFrom(r.log, next), batch);
      var msg := AppendEntries(r.term, r.commitIndex, PrevOf(r.log, next), entries);
      if entries == [] then (r, Packet(r.id, peer, msg))
      else (r.(nextIndex := r.nextIndex[peer := LastIdx(entries) + 1]), Packet(r.id, peer, msg))
    else
      (r, Packet(r.id, peer, EmptySnapshot(r.term, r.commitIndex)))
  }

  predicate IsAppend(msg: Message) {
    msg.AppendEntries? || msg.EmptySnapshot?
  }

  function FollowLeader(r: Raft, src: NodeId, term: nat): Raft {
    r.(leader := Some(src), role := Follower, term := term,
       votedFor := if term > r.term then None else r.votedFor)
  }

  /** The log holds the entry the leader's new entries attach to. */
  predicate Attaches(log: Log, prev: Option<Prev>)
    requires |log| > 0
  {
    prev.Some? && var es := EntriesFrom(log, prev.value.idx); es != [] && es[0].term == prev.value.term
  }

  /** Drop everything behind `prev`, then add the leader's entries. */
  function Spliced(log: Log, prev: Prev, entries: seq<Entry>): (r: Log)
    requires |log| > 0 && Attaches(log, Some(prev))
    ensures |r| > 0
  {
    log[..prev.idx + 1 - log[0].idx] + entries
  }

  function Min(a: nat, b: nat): nat {
    if a < b then a else b
  }

  predicate Accepts(r: Raft, msg: Message)
    requires |r.log| > 0
  {
    msg.AppendEntries? && msg.term >= r.term && Attaches(r.log, msg.prev)
  }

  function TakenEntries(f: Raft, src: NodeId, msg: Message): (Raft, multiset<Packet>)
    requires |f.log| > 0 && msg.AppendEntries?
  {
    if Attaches(f.log, msg.prev) then
      var prev := msg.prev.value;
      var log := Spliced(f.log, prev, msg.entries);
      var next := if msg.entries == [] then prev.idx + 1 else LastIdx(msg.entries);
      (f.(log := log, commitIndex := Min(msg.commitIndex, LastIdx(log))),
       multiset{Packet(f.id, src, NextNodeIdx(next, false, true))})
    else
      var next := if msg.prev.None? || EntriesFrom(f.log, msg.prev.value.idx) == []
                  then LastIdx(f.log) + 1 else msg.prev.value.idx;
      (f, multiset{Packet(f.id, src, NextNodeIdx(next, true, false))})
  }

  function OnAppendEntries(r: Raft, src: NodeId, msg: Message): (Raft, multiset<Packet>)
    requires |r.log| > 0 && IsAppend(msg)
  {
    if msg.term < r.term then (r, multiset{})
    else
      var f := FollowLeader(r, src, msg.term);
      if msg.EmptySnapshot? then
        (f.(commitIndex := Min(msg.commitIndex, LastIdx(f.log))), multiset{})
      else TakenEntries(f, src, msg)
  }

  function OnNextNodeIdx(r: Raft, src: NodeId, msg: Message): Raft
    requires msg.NextNodeIdx?
  {
    if r.role != Leader then r
    else
      var a := if msg.reset then r.(nextIndex := r.nextIndex[src := msg.next]) else r;
      if msg.success then a.(matchIndex := a.matchIndex[src := msg.next - 1]) else a
  }

  function Receive(r: Raft, src: NodeId, msg: Message): (Raft, multiset<Packet>)
    requires |r.log| > 0
  {
    match msg
    case RequestVote(_, _, _) => OnRequestVote(r, src, msg)
    case ResponseVote(_) => (OnResponseVote(r, msg), multiset{})
    case AppendEntries(_, _, _, _) => OnAppendEntries(r, src, msg)
    case EmptySnapshot(_, _) => OnAppendEntries(r, src, msg)
    case NextNodeIdx(_, _, _) => (OnNextNodeIdx(r, src, msg), multiset{})
  }

  // --------------------------------------------------------- commit and apply

  /** The peers that reported to hold the entry at index i. */
  function Ackers(r: Raft, i: nat): set<NodeId> {
    set p | p in r.peers && p in r.matchIndex && r.matchIndex[p] >= i
  }

  /** The commit loop may stop at c: it passed every index up to c, and either
      reached the end of the log or the next index lacks a majority. */
  predicate CommitsTo(r: Raft, c: nat)
    requires |r.log| > 0
  {
    && r.commitIndex <= c
    && (c == r.commitIndex || c <= LastIdx(r.log))
    && (forall i :: r.commitIndex < i <= c ==> Majority(r, |Ackers(r, i)| + 1))
    && (c < LastIdx(r.log) ==> !Majority(r, |Ackers(r, c + 1)| + 1))
  }

  function StepDown(r: Raft): Raft {
    r.(role := Follower, leader := None)
  }

  /** A command asking for a code version above the node's own raises. */
  predicate Supported(cmd: Command, selfVer: nat) {
    cmd.Version? ==> cmd.ver <= selfVer
  }

  function Executed(es: seq<Entry>, selfVer: nat): (r: seq<Entry>)
    ensures |r| <= |es|
    ensures forall e :: e in r <==> e in es && Supported(e.cmd, selfVer)
  {
    if es == [] then []
    else (if Supported(es[0].cmd, selfVer) then [es[0]] else []) + Executed(es[1..], selfVer)
  }

  /** The entries one tick hands to the state machine. */
  function Unapplied(r: Raft): seq<Entry>
    requires |r.log| > 0
  {
    if r.commitIndex > r.lastApplied
    then Take(EntriesFrom(r.log, r.lastApplied + 1), r.commitIndex - r.lastApplied)
    else []
  }

  function ApplyCommitted(r: Raft): Raft
    requires |r.log| > 0
  {
    r.(lastApplied := r.lastApplied + |Executed(Unapplied(r), r.selfVer)|)
  }
}
