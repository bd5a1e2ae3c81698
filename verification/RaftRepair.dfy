/** Repairing the log of a follower: a leader and one follower exchange appends and
    answers, one round after the other. The follower ends with the leader's log
    exactly when the leader does not start beyond the end of its own log with a
    follower whose log is longer; from there it backs off for ever to the same index. */
module RaftRepair {
  import opened Options
  import opened RaftTypes
  import opened RaftProtocol
  import opened RaftSystem
  import opened RaftElection
  import opened RaftLog
  import opened RaftApply

  /** A leader, and a follower whose term is not ahead. */
  predicate Together(l: Raft, f: Raft) {
    && l.role == Leader && f.term <= l.term
    && WellFormedLog(l.log) && WellFormedLog(f.log)
    && f.id in l.nextIndex && l.nextIndex[f.id] >= 2 && f.id in l.matchIndex
  }

  /** Entries of one index and term sit behind the same entries. */
  ghost predicate Consistent(a: Log, b: Log) {
    forall k :: 0 <= k < |a| && k < |b| && a[k].term == b[k].term ==> SameThrough(a, b, k)
  }

  ghost predicate SameThrough(a: Log, b: Log, k: nat) {
    k < |a| && k < |b| && a[..k + 1] == b[..k + 1]
  }

  ghost predicate Paired(l: Raft, f: Raft) {
    Together(l, f) && Consistent(l.log, f.log)
  }

  /** The one answer in what a node sends. */
  ghost function TheAnswer(out: multiset<Packet>): Packet
    requires out != multiset{}
  {
    var p :| p in out; p
  }

  /** The leader sends up to `batch` entries, the follower receives them, and the leader
      receives the answer. */
  ghost function Round(l: Raft, f: Raft, batch: nat): (r: (Raft, Raft))
    requires Together(l, f)
  {
    var (sent, p) := SendAppend(l, f.id, batch);
    var (g, out) := Receive(f, l.id, p.msg);
    if out == multiset{} then (sent, g) else (Receive(sent, f.id, TheAnswer(out).msg).0, g)
  }

  /** The follower holds the entry that the next append of the leader is to follow. */
  predicate Meets(l: Raft, f: Raft)
    requires Together(l, f)
  {
    var prev := l.nextIndex[f.id] - 1;
    prev <= |l.log| && prev <= |f.log| && l.log[prev - 1].term == f.log[prev - 1].term
  }

  /** Nothing but these changed at the leader. */
  predicate SameLeader(l: Raft, l': Raft) {
    l'.id == l.id && l'.role == l.role && l'.term == l.term && l'.log == l.log && l'.commitIndex == l.commitIndex
  }

  /** What the leader sends: its term and commit index, the entry before the next index
      if its log has it, and the k entries from there on. */
  predicate Sends(l: Raft, f: Raft, batch: nat, sent: Raft, msg: Message)
    requires Together(l, f)
  {
    var n := l.nextIndex[f.id];
    var k := if n > |l.log| then 0 else if batch < |l.log| + 1 - n then batch else |l.log| + 1 - n;
    && SameLeader(l, sent) && sent.matchIndex == l.matchIndex
    && f.id in sent.nextIndex && sent.nextIndex[f.id] == n + k
    && msg.AppendEntries? && msg.term == l.term && msg.commitIndex == l.commitIndex
    && msg.prev == (if n - 1 <= |l.log| then Some(Prev(n - 1, l.log[n - 2].term)) else None)
    && msg.entries == if k == 0 then [] else l.log[n - 1..n - 1 + k]
  }

  lemma SentMessage(l: Raft, f: Raft, batch: nat)
    requires Together(l, f) && batch > 0
    ensures Sends(l, f, batch, SendAppend(l, f.id, batch).0, SendAppend(l, f.id, batch).1.msg)
  {
    Stretch(l.log, l.nextIndex[f.id], batch);
    var n := l.nextIndex[f.id];
    assert EntriesFrom(l.log, n) == if n > |l.log| then [] else l.log[n - 1..];
    if n <= |l.log| {
      assert LastIdx(Take(EntriesFrom(l.log, n), batch)) == n - 1 + |Take(EntriesFrom(l.log, n), batch)|;
    }
  }

  /** The follower accepted: its log is cut behind the entry that the append follows,
      and grows by what was sent, k entries. */
  predicate Accepted(l: Raft, f: Raft, batch: nat, m: Raft, g: Raft)
    requires Together(l, f) && Meets(l, f)
  {
    var n := l.nextIndex[f.id];
    var k := if batch < |l.log| + 1 - n then batch else |l.log| + 1 - n;
    && SameLeader(l, m) && g.id == f.id && g.term == l.term
    && g.log == f.log[..n - 1] + l.log[n - 1..n - 1 + k] && g.commitIndex == Min(l.commitIndex, |g.log|)
    && f.id in m.nextIndex && m.nextIndex[f.id] == n + k
    && f.id in m.matchIndex && m.matchIndex[f.id] == if k == 0 then n - 1 else n + k - 2
  }

  /** It refused: its log stays, and the leader backs off to the index of the answer. */
  predicate Refused(l: Raft, f: Raft, m: Raft, g: Raft)
    requires Together(l, f)
  {
    var n := l.nextIndex[f.id];
    && SameLeader(l, m) && g.id == f.id && g.term == l.term && g.log == f.log
    && f.id in m.nextIndex && f.id in m.matchIndex
    && m.nextIndex[f.id] == (if n - 1 > |l.log| || n - 1 > |f.log| then |f.log| + 1 else n - 1)
    && m.matchIndex[f.id] == l.matchIndex[f.id]
  }

  /** The leader backs off to that index, or notes what lies before it as matched. */
  function Informed(l: Raft, src: NodeId, next: nat, refused: bool): Raft {
    if refused then l.(nextIndex := l.nextIndex[src := next]) else l.(matchIndex := l.matchIndex[src := next - 1])
  }

  lemma Informs(l: Raft, src: NodeId, next: nat, refused: bool)
    requires |l.log| > 0 && l.role == Leader
    ensures Receive(l, src, NextNodeIdx(next, refused, !refused)).0 == Informed(l, src, next, refused)
  {
  }

  lemma OnlyAnswer(out: multiset<Packet>, q: Packet)
    requires out == multiset{q}
    ensures TheAnswer(out) == q
  {
    assert q in out;
  }

  /** A round in which the follower answers with a next index. */
  lemma AnsweredRound(l: Raft, f: Raft, batch: nat, next: nat, refused: bool)
    requires Together(l, f) && SendAppend(l, f.id, batch).0.role == Leader && |SendAppend(l, f.id, batch).0.log| > 0
    requires Receive(f, l.id, SendAppend(l, f.id, batch).1.msg).1 == multiset{Packet(f.id, l.id, NextNodeIdx(next, refused, !refused))}
    ensures Round(l, f, batch) ==
              (Informed(SendAppend(l, f.id, batch).0, f.id, next, refused), Receive(f, l.id, SendAppend(l, f.id, batch).1.msg).0)
  {
    var q := Packet(f.id, l.id, NextNodeIdx(next, refused, !refused));
    OnlyAnswer(Receive(f, l.id, SendAppend(l, f.id, batch).1.msg).1, q);
    Informs(SendAppend(l, f.id, batch).0, f.id, next, refused);
  }

  lemma AcceptedAnswer(f: Raft, src: NodeId, msg: Message)
    requires WellFormedLog(f.log) && msg.AppendEntries? && msg.term >= f.term && msg.prev.Some?
    requires var i := msg.prev.value.idx; 1 <= i <= |f.log| && f.log[i - 1].term == msg.prev.value.term
    ensures var (g, out) := Receive(f, src, msg);
            var i := msg.prev.value.idx;
            && g.id == f.id && g.term == msg.term && g.log == f.log[..i] + msg.entries && |g.log| > 0
            && g.commitIndex == Min(msg.commitIndex, LastIdx(g.log))
            && out == multiset{Packet(f.id, src, NextNodeIdx(if msg.entries == [] then i + 1 else LastIdx(msg.entries), false, true))}
  {
    assert EntriesFrom(f.log, msg.prev.value.idx) == f.log[msg.prev.value.idx - 1..];
  }

  lemma AcceptedFrom(l: Raft, f: Raft, batch: nat, sent: Raft, msg: Message, g: Raft)
    requires Together(l, f) && batch > 0 && Meets(l, f) && Sends(l, f, batch, sent, msg)
    requires g.id == f.id && g.term == msg.term && g.log == f.log[..msg.prev.value.idx] + msg.entries && |g.log| > 0
    requires g.commitIndex == Min(msg.commitIndex, LastIdx(g.log))
    ensures var next := if msg.entries == [] then msg.prev.value.idx + 1 else LastIdx(msg.entries);
            Accepted(l, f, batch, Informed(sent, f.id, next, false), g)
  {
    var n := l.nextIndex[f.id];
    if msg.entries == [] {
      assert g.log == f.log[..n - 1];
    } else {
      assert g.log[|g.log| - 1] == msg.entries[|msg.entries| - 1];
    }
  }

  lemma MetRound(l: Raft, f: Raft, batch: nat)
    requires Together(l, f) && batch > 0 && Meets(l, f)
    ensures Accepted(l, f, batch, Round(l, f, batch).0, Round(l, f, batch).1)
  {
    SentMessage(l, f, batch);
    var (sent, p) := SendAppend(l, f.id, batch);
    AcceptedAnswer(f, l.id, p.msg);
    AcceptedFrom(l, f, batch, sent, p.msg, Receive(f, l.id, p.msg).0);
    AnsweredRound(l, f, batch, if p.msg.entries == [] then p.msg.prev.value.idx + 1 else LastIdx(p.msg.entries), false);
  }

  lemma RefusedAnswer(f: Raft, src: NodeId, msg: Message)
    requires WellFormedLog(f.log) && msg.AppendEntries? && msg.term >= f.term
    requires msg.prev.Some? ==> msg.prev.value.idx >= 1 && (msg.prev.value.idx <= |f.log| ==> f.log[msg.prev.value.idx - 1].term != msg.prev.value.term)
    ensures var (g, out) := Receive(f, src, msg);
            && g.id == f.id && g.term == msg.term && g.log == f.log
            && out == multiset{Packet(f.id, src, NextNodeIdx(BackTo(f, msg), true, false))}
  {
    if msg.prev.Some? {
      var i := msg.prev.value.idx;
      assert EntriesFrom(f.log, i) == if i > |f.log| then [] else f.log[i - 1..];
    }
  }

  /** The next index in the answer of a follower that refuses. */
  function BackTo(f: Raft, msg: Message): nat
    requires msg.AppendEntries?
  {
    if msg.prev.Some? && msg.prev.value.idx <= |f.log| then msg.prev.value.idx else |f.log| + 1
  }

  lemma RefusedFrom(l: Raft, f: Raft, batch: nat, sent: Raft, msg: Message, g: Raft)
    requires Together(l, f) && Sends(l, f, batch, sent, msg) && g.id == f.id && g.term == msg.term && g.log == f.log
    ensures Refused(l, f, Informed(sent, f.id, BackTo(f, msg), true), g)
  {
  }

  lemma MissedRound(l: Raft, f: Raft, batch: nat)
    requires Together(l, f) && batch > 0 && !Meets(l, f)
    ensures Refused(l, f, Round(l, f, batch).0, Round(l, f, batch).1)
  {
    SentMessage(l, f, batch);
    var (sent, p) := SendAppend(l, f.id, batch);
    RefusedAnswer(f, l.id, p.msg);
    RefusedFrom(l, f, batch, sent, p.msg, Receive(f, l.id, p.msg).0);
    AnsweredRound(l, f, batch, BackTo(f, p.msg), true);
  }

  // ------------------------------------------------------------------- one round

  lemma FirstAgrees(l: Raft, f: Raft)
    requires Together(l, f) && !Meets(l, f)
    ensures l.nextIndex[f.id] >= 3
  {
    assert l.log[0] == f.log[0] == FIRST_ENTRY;
  }

  lemma PrefixConsistent(a: Log, n: nat)
    requires WellFormedLog(a) && 0 < n <= |a|
    ensures WellFormedLog(a[..n]) && Consistent(a, a[..n])
  {
    forall k | 0 <= k < n ensures SameThrough(a, a[..n], k) {
      assert a[..n][..k + 1] == a[..k + 1];
    }
  }

  /** What the follower has accepted is the leader's. */
  lemma AcceptedLog(l: Raft, f: Raft, batch: nat, m: Raft, g: Raft)
    requires Paired(l, f) && Meets(l, f) && Accepted(l, f, batch, m, g)
    ensures var end := m.nextIndex[f.id] - 1; end <= |l.log| && g.log == l.log[..end]
  {
    var n := l.nextIndex[f.id];
    assert SameThrough(l.log, f.log, n - 2);
    var k := m.nextIndex[f.id] - n;
    assert l.log[..n - 1] + l.log[n - 1..n - 1 + k] == l.log[..n - 1 + k];
  }

  lemma AcceptedKeeps(l: Raft, f: Raft, batch: nat, m: Raft, g: Raft)
    requires Paired(l, f) && Meets(l, f) && Accepted(l, f, batch, m, g)
    ensures Paired(m, g)
  {
    AcceptedLog(l, f, batch, m, g);
    PrefixConsistent(l.log, m.nextIndex[f.id] - 1);
  }

  lemma RefusedKeeps(l: Raft, f: Raft, m: Raft, g: Raft)
    requires Paired(l, f) && !Meets(l, f) && Refused(l, f, m, g)
    ensures Paired(m, g)
  {
    FirstAgrees(l, f);
  }

  lemma RoundKeeps(l: Raft, f: Raft, batch: nat)
    requires Paired(l, f) && batch > 0
    ensures var (m, g) := Round(l, f, batch);
            Paired(m, g) && m.log == l.log && m.commitIndex == l.commitIndex && m.id == l.id && g.id == f.id
  {
    var r := Round(l, f, batch);
    if Meets(l, f) {
      MetRound(l, f, batch);
      AcceptedKeeps(l, f, batch, r.0, r.1);
    } else {
      MissedRound(l, f, batch);
      RefusedKeeps(l, f, r.0, r.1);
    }
  }

  /** The leader starts behind the end of its log, at a follower whose log is longer. */
  predicate Beyond(l: Raft, f: Raft)
    requires Together(l, f)
  {
    l.nextIndex[f.id] > |l.log| + 1 && |f.log| > |l.log|
  }

  /** A refusal takes the leader back behind the index that the append used, if and only
      if it does not come from beyond. */
  lemma RefusalLowersIff(l: Raft, f: Raft, batch: nat)
    requires Paired(l, f) && batch > 0 && !Meets(l, f)
    ensures var n := l.nextIndex[f.id];
            var (m, g) := Round(l, f, batch);
            && f.id in m.nextIndex && g.log == f.log
            && (m.nextIndex[f.id] < n <==> !(n > |l.log| + 1 && |f.log| + 1 >= n))
            && (n <= |l.log| + 1 ==> m.nextIndex[f.id] <= n - 1)
  {
    MissedRound(l, f, batch);
  }

  /** The follower holds what the leader takes it to hold, and no more. */
  predicate InStep(l: Raft, f: Raft)
    requires Together(l, f)
  {
    l.nextIndex[f.id] <= |l.log| + 1 && f.log == l.log[..l.nextIndex[f.id] - 1]
  }

  /** How many rounds the repair takes at most. */
  ghost function Distance(l: Raft, f: Raft): nat
    requires Together(l, f)
  {
    var n := l.nextIndex[f.id];
    if InStep(l, f) then |l.log| + 1 - n
    else if n <= |l.log| + 1 then n - 1 + |l.log| - 1
    else 2 * |l.log|
  }

  lemma InStepMeets(l: Raft, f: Raft)
    requires Together(l, f) && InStep(l, f)
    ensures Meets(l, f)
  {
    var n := l.nextIndex[f.id];
    assert f.log[n - 2] == l.log[n - 2];
  }

  lemma AcceptedNearer(l: Raft, f: Raft, batch: nat, m: Raft, g: Raft)
    requires Paired(l, f) && batch > 0 && Meets(l, f) && Accepted(l, f, batch, m, g) && Together(m, g)
    ensures InStep(m, g) && !Beyond(m, g) && !Beyond(l, f)
    ensures Distance(l, f) > 0 ==> Distance(m, g) < Distance(l, f)
    ensures Distance(l, f) == 0 ==> Distance(m, g) == 0
  {
    AcceptedLog(l, f, batch, m, g);
  }

  lemma RefusedNearer(l: Raft, f: Raft, m: Raft, g: Raft)
    requires Paired(l, f) && !Meets(l, f) && Refused(l, f, m, g) && Together(m, g)
    ensures Beyond(m, g) <==> Beyond(l, f)
    ensures !Beyond(l, f) ==> Distance(m, g) < Distance(l, f)
    ensures Distance(l, f) > 0
  {
    FirstAgrees(l, f);
    if InStep(l, f) {
      InStepMeets(l, f);
    }
  }

  /** Every round brings them closer, unless the leader starts beyond. */
  lemma RoundNearer(l: Raft, f: Raft, batch: nat)
    requires Paired(l, f) && batch > 0
    ensures var (m, g) := Round(l, f, batch);
            && Together(m, g) && (Beyond(m, g) <==> Beyond(l, f))
            && (!Beyond(l, f) && Distance(l, f) > 0 ==> Distance(m, g) < Distance(l, f))
            && (Distance(l, f) == 0 ==> Distance(m, g) == 0)
  {
    var r := Round(l, f, batch);
    RoundKeeps(l, f, batch);
    if Meets(l, f) {
      MetRound(l, f, batch);
      AcceptedNearer(l, f, batch, r.0, r.1);
    } else {
      MissedRound(l, f, batch);
      RefusedNearer(l, f, r.0, r.1);
    }
  }

  /** In step to the end: the next answer tells the leader. */
  lemma AtTheEnd(l: Raft, f: Raft)
    requires Paired(l, f) && Distance(l, f) == 0
    ensures f.log == l.log && l.nextIndex[f.id] == |l.log| + 1 && Meets(l, f)
  {
    assert InStep(l, f);
    assert l.log[..|l.log|] == l.log;
    InStepMeets(l, f);
  }

  /** The leader knows that the follower holds its log, and the follower how far that is
      committed. */
  predicate Done(l: Raft, m: Raft, g: Raft) {
    && g.log == l.log && g.commitIndex == Min(l.commitIndex, |l.log|) && g.id in m.matchIndex && m.matchIndex[g.id] == |l.log|
    && g.id in m.nextIndex && m.nextIndex[g.id] == |l.log| + 1
  }

  lemma Heartbeat(l: Raft, f: Raft, batch: nat)
    requires Paired(l, f) && batch > 0 && Distance(l, f) == 0
    ensures var (m, g) := Round(l, f, batch);
            Done(l, m, g)
  {
    AtTheEnd(l, f);
    MetRound(l, f, batch);
    AcceptedLog(l, f, batch, Round(l, f, batch).0, Round(l, f, batch).1);
    assert l.log[..|l.log|] == l.log;
  }

  // ------------------------------------------------------------------ many rounds

  /** One round after the other, with these batches. */
  ghost function Rounds(l: Raft, f: Raft, batches: seq<nat>): (r: (Raft, Raft))
    requires Paired(l, f) && forall i :: 0 <= i < |batches| ==> batches[i] > 0
    ensures Paired(r.0, r.1) && r.0.log == l.log && r.0.commitIndex == l.commitIndex && r.1.id == f.id
    decreases |batches|
  {
    if batches == [] then (l, f)
    else
      var n := |batches| - 1;
      var before := Rounds(l, f, batches[..n]);
      RoundKeeps(before.0, before.1, batches[n]);
      Round(before.0, before.1, batches[n])
  }

  lemma {:induction false} RoundsNearer(l: Raft, f: Raft, batches: seq<nat>)
    requires Paired(l, f) && forall i :: 0 <= i < |batches| ==> batches[i] > 0
    ensures var (m, g) := Rounds(l, f, batches);
            && (Beyond(m, g) <==> Beyond(l, f))
            && (!Beyond(l, f) ==> Distance(m, g) == 0 || Distance(m, g) + |batches| <= Distance(l, f))
    decreases |batches|
  {
    if batches != [] {
      var n := |batches| - 1;
      RoundsNearer(l, f, batches[..n]);
      var before := Rounds(l, f, batches[..n]);
      RoundNearer(before.0, before.1, batches[n]);
    }
  }

  lemma LastHeartbeat(l: Raft, f: Raft, batches: seq<nat>)
    requires Paired(l, f) && batches != [] && forall i :: 0 <= i < |batches| ==> batches[i] > 0
    requires var before := Rounds(l, f, batches[..|batches| - 1]); Distance(before.0, before.1) == 0
    ensures Done(l, Rounds(l, f, batches).0, Rounds(l, f, batches).1)
  {
    var before := Rounds(l, f, batches[..|batches| - 1]);
    RoundKeeps(before.0, before.1, batches[|batches| - 1]);
    Heartbeat(before.0, before.1, batches[|batches| - 1]);
  }

  lemma NearTheEnd(l: Raft, f: Raft, batches: seq<nat>)
    requires Paired(l, f) && |batches| >= 2 * |l.log| && forall i :: 0 <= i < |batches| ==> batches[i] > 0
    requires !Beyond(l, f)
    ensures var (m, g) := Rounds(l, f, batches); Distance(m, g) == 0
  {
    RoundsNearer(l, f, batches);
  }

  lemma StillBeyond(l: Raft, f: Raft, batches: seq<nat>)
    requires Paired(l, f) && Beyond(l, f) && forall i :: 0 <= i < |batches| ==> batches[i] > 0
    ensures |Rounds(l, f, batches).1.log| > |l.log|
  {
    RoundsNearer(l, f, batches);
  }

  /** After twice the length of the leader's log in rounds, and one more, the follower
      holds the leader's log, and the leader knows, if and only if it did not start
      beyond. */
  lemma RepairedIff(l: Raft, f: Raft, batches: seq<nat>)
    requires Paired(l, f) && |batches| > 2 * |l.log| && forall i :: 0 <= i < |batches| ==> batches[i] > 0
    ensures var (m, g) := Rounds(l, f, batches);
            && (g.log == l.log <==> l.nextIndex[f.id] <= |l.log| + 1 || |f.log| <= |l.log|)
            && (g.log == l.log ==> Done(l, m, g))
  {
    if Beyond(l, f) {
      StillBeyond(l, f, batches);
    } else {
      NearTheEnd(l, f, batches[..|batches| - 1]);
      LastHeartbeat(l, f, batches);
    }
  }

  // ------------------------------------------------------------- reachable states

  /** Both index tables have a place for every peer. */
  predicate Tracks(r: Raft) {
    r.peers <= r.nextIndex.Keys && r.peers <= r.matchIndex.Keys
  }

  lemma ReceiveTracks(r: Raft, src: NodeId, msg: Message)
    requires |r.log| > 0 && Tracks(r)
    ensures Tracks(Receive(r, src, msg).0)
  {
    match msg
    case RequestVote(_, _, _) =>
    case ResponseVote(_) =>
    case AppendEntries(_, _, _, _) =>
    case EmptySnapshot(_, _) =>
    case NextNodeIdx(_, _, _) =>
  }

  lemma StepTracks(s: System, step: Step, n: NodeId)
    requires Running(s) && Enabled(s, step) && n in s.nodes && Tracks(s.nodes[n])
    ensures n in Next(s, step).nodes && Tracks(Next(s, step).nodes[n])
  {
    match step
    case Deliver(p) =>
      if p.dst == n {
        ReceiveTracks(s.nodes[n], p.src, p.msg);
      }
    case _ =>
  }

  lemma StepsTrack(s: System, t: System, n: NodeId)
    requires Steps(s, t) && n in s.nodes && Tracks(s.nodes[n])
    ensures n in t.nodes && Tracks(t.nodes[n])
  {
    var step :| Enabled(s, step) && t == Next(s, step);
    StepTracks(s, step, n);
  }

  lemma FreshTracks(s: System, n: NodeId)
    requires Init(s) && n in s.nodes
    ensures Tracks(s.nodes[n])
  {
    assert StartsFresh(s, n);
  }

  lemma {:induction false} RunTracks(states: seq<System>, i: nat, n: NodeId)
    requires Run(states) && i < |states| && n in states[i].nodes
    ensures Tracks(states[i].nodes[n])
    decreases i
  {
    if i == 0 {
      FreshTracks(states[0], n);
    } else {
      RunSteps(states, i);
      SameMembersAt(states[i - 1], states[i]);
      RunTracks(states, i - 1, n);
      StepsTrack(states[i - 1], states[i], n);
    }
  }

  lemma ReachablePair(states: seq<System>, i: nat, n: NodeId, m: NodeId)
    requires Run(states) && i < |states| && n in states[i].nodes && m in states[i].nodes
    requires states[i].nodes[n].role == Leader && m in states[i].nodes[n].peers
    requires states[i].nodes[m].term <= states[i].nodes[n].term
    ensures Paired(states[i].nodes[n], states[i].nodes[m]) && states[i].nodes[m].id == m
  {
    RunKeeps(states, i);
    RunAnchored(states, i, n);
    RunAnchored(states, i, m);
    RunTracks(states, i, n);
    NextAbove(states, i, n);
    ConsistentLogs(states, i, n, m);
  }

  lemma ConsistentLogs(states: seq<System>, i: nat, n: NodeId, m: NodeId)
    requires Run(states) && i < |states| && n in states[i].nodes && m in states[i].nodes
    ensures Consistent(states[i].nodes[n].log, states[i].nodes[m].log)
  {
    var a, b := states[i].nodes[n].log, states[i].nodes[m].log;
    forall k | 0 <= k < |a| && k < |b| && a[k].term == b[k].term ensures SameThrough(a, b, k) {
      LogMatching(states, i, n, m, k);
    }
  }

  lemma NextAbove(states: seq<System>, i: nat, n: NodeId)
    requires Run(states) && i < |states| && n in states[i].nodes
    ensures NextOk(states[i].nodes[n])
  {
    RunKeepsLogs(states, i);
    assert NodeLogOk(states[i].nodes[n], states[i].hist);
  }

  /** Catching up: from any reachable state, with nothing else interfering, a leader
      brings a follower whose term is not ahead to its own log, and learns that it has,
      within twice the length of that log in rounds and one more, if and only if it
      does not start behind the end of its log at a follower whose log is longer. */
  lemma CatchesUpIff(states: seq<System>, i: nat, n: NodeId, m: NodeId, batches: seq<nat>)
    requires Run(states) && i < |states| && n in states[i].nodes && m in states[i].nodes
    requires states[i].nodes[n].role == Leader && m in states[i].nodes[n].peers
    requires states[i].nodes[m].term <= states[i].nodes[n].term
    requires |batches| > 2 * |states[i].nodes[n].log| && forall k :: 0 <= k < |batches| ==> batches[k] > 0
    ensures var l, f := states[i].nodes[n], states[i].nodes[m];
            && Paired(l, f) && m in l.nextIndex
            && var r := Rounds(l, f, batches);
            && (r.1.log == l.log <==> l.nextIndex[m] <= |l.log| + 1 || |f.log| <= |l.log|)
            && (r.1.log == l.log ==> Done(l, r.0, r.1))
  {
    ReachablePair(states, i, n, m);
    RepairedIff(states[i].nodes[n], states[i].nodes[m], batches);
  }
}
