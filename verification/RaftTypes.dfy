/** The data of the Raft engine: log entries, messages, and the fields a
    SyncObj node keeps for elections and replication. */
module RaftTypes {
  import opened Options

  /** Node addresses are only ever compared, so a number stands for one. */
  type NodeId = nat

  datatype Command =
    | NoOp
    | Regular(body: string)
    | Membership(body: string)
    | Version(ver: nat)

  datatype Entry = Entry(cmd: Command, idx: nat, term: nat)

  type Log = seq<Entry>

  datatype Role = Follower | Candidate | Leader

  datatype Prev = Prev(idx: nat, term: nat)

  /** `EmptySnapshot` is an append_entries message without prevLogIdx whose
      serialized part is None: the only kind of snapshot message that exists
      while log compaction is off. */
  datatype Message =
    | RequestVote(term: nat, lastIdx: nat, lastTerm: nat)
    | ResponseVote(term: nat)
    | AppendEntries(term: nat, commitIndex: nat, prev: Option<Prev>, entries: seq<Entry>)
    | EmptySnapshot(term: nat, commitIndex: nat)
    | NextNodeIdx(next: nat, reset: bool, success: bool)

  datatype Packet = Packet(src: NodeId, dst: NodeId, msg: Message)

  datatype Raft = Raft(
    id: NodeId,
    peers: set<NodeId>,
    selfVer: nat,
    role: Role,
    term: nat,
    votedFor: Option<NodeId>,
    votesCount: nat,
    leader: Option<NodeId>,
    log: Log,
    commitIndex: nat,
    lastApplied: nat,
    nextIndex: map<NodeId, nat>,
    matchIndex: map<NodeId, int>)

  const FIRST_ENTRY := Entry(NoOp, 1, 0)

  /** A log is numbered from 1 without gaps and starts with the no-op every
      node writes at start-up. */
  predicate WellFormedLog(log: Log) {
    && |log| >= 1
    && log[0] == FIRST_ENTRY
    && forall k :: 0 <= k < |log| ==> log[k].idx == k + 1
  }

  function LastIdx(log: Log): nat
    requires |log| > 0
  {
    log[|log| - 1].idx
  }

  function LastTerm(log: Log): nat
    requires |log| > 0
  {
    log[|log| - 1].term
  }

  /** More than half of the cluster (the peers and the node itself). */
  predicate Majority(r: Raft, count: nat) {
    2 * count > |r.peers| + 1
  }
}
