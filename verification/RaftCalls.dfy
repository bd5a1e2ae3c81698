/** Who is told what: the callbacks that each operation of a node invokes, and the
    outcome it hands them, spelt out. */
module RaftCalls {
  import opened Options
  import opened RaftTypes
  import opened RaftProtocol
  import opened RaftClient
  import opened RaftLoss

  /** The node cannot switch to the code version that the command asks for. */
  predicate Raises(cmd: Command, selfVer: nat) {
    cmd.Version? && cmd.ver > selfVer
  }

  function WaitingAt(c: Client, idx: nat): seq<Waiting> {
    if idx in c.waitingCommit then c.waitingCommit[idx] else []
  }

  /** What a callback that waits for an index is told when entry e is applied there:
      success if it waits for the term of that entry, and otherwise that its command was
      discarded. */
  function CallFor(w: Waiting, e: Entry): Fired {
    Fired(w.cb, if w.term == e.term then Success(e) else Failure(Discarded))
  }

  /** How many callbacks wait for entries among the first q that do not raise. */
  function CallsBefore(c: Client, es: seq<Entry>, q: nat, selfVer: nat): nat
    requires q <= |es|
  {
    if q == 0 then 0
    else CallsBefore(c, es, q - 1, selfVer) + if Raises(es[q - 1].cmd, selfVer) then 0 else |WaitingAt(c, es[q - 1].idx)|
  }

  /** The calls from `at` on tell these callbacks, in this order. */
  ghost predicate Tells(fired: seq<Fired>, at: nat, waiting: seq<Waiting>, e: Entry) {
    at + |waiting| <= |fired| && forall j :: 0 <= j < |waiting| ==> fired[at + j] == CallFor(waiting[j], e)
  }

  /** Applying one entry. */
  lemma EntryCalls(c: Client, e: Entry, selfVer: nat)
    ensures var d := ApplyEntry(c, e, selfVer);
            && c.fired <= d.fired
            && |d.fired| == |c.fired| + (if Raises(e.cmd, selfVer) then 0 else |WaitingAt(c, e.idx)|)
            && (!Raises(e.cmd, selfVer) ==> Tells(d.fired, |c.fired|, WaitingAt(c, e.idx), e))
            && (forall idx :: WaitingAt(d, idx) == if idx == e.idx then [] else WaitingAt(c, idx))
            && d.queue == c.queue && d.counter == c.counter && d.waitingReply == c.waitingReply
  {
  }

  /** The committed entries that a node has not applied. */
  function Due(r: Raft): seq<Entry> {
    if r.commitIndex > r.lastApplied && r.commitIndex <= |r.log| then r.log[r.lastApplied..r.commitIndex] else []
  }

  lemma DueIsUnapplied(r: Raft)
    requires WellFormedLog(r.log) && r.commitIndex <= |r.log|
    ensures Unapplied(r) == Due(r)
  {
    assert EntriesFrom(r.log, r.lastApplied + 1) == if r.lastApplied >= |r.log| then [] else r.log[r.lastApplied..];
  }

  lemma DueDistinct(r: Raft)
    requires WellFormedLog(r.log)
    ensures DistinctIdx(Due(r))
  {
    forall i | 0 <= i < |Due(r)| ensures Due(r)[i].idx == r.lastApplied + i + 1 {
      assert Due(r)[i] == r.log[r.lastApplied + i];
    }
  }

  /** The calls of the first q entries. */
  ghost predicate ToldAll(c: Client, d: Client, es: seq<Entry>, q: nat, selfVer: nat)
    requires q <= |es|
  {
    && c.fired <= d.fired && |d.fired| == |c.fired| + CallsBefore(c, es, q, selfVer)
    && (forall k {:trigger ToldAt(c, d, es, k, selfVer)} :: 0 <= k < q ==> ToldAt(c, d, es, k, selfVer))
    && (forall idx :: !Among(es, q, idx) ==> WaitingAt(d, idx) == WaitingAt(c, idx))
  }

  ghost predicate Among(es: seq<Entry>, q: nat, idx: nat) {
    exists k :: 0 <= k < q && k < |es| && es[k].idx == idx
  }

  ghost predicate ToldAt(c: Client, d: Client, es: seq<Entry>, k: nat, selfVer: nat) {
    k < |es| && (!Raises(es[k].cmd, selfVer) ==>
      Tells(d.fired, |c.fired| + CallsBefore(c, es, k, selfVer), WaitingAt(c, es[k].idx), es[k]))
  }

  lemma ToldMore(c: Client, d: Client, f: Client, es: seq<Entry>, q: nat, selfVer: nat)
    requires q < |es| && DistinctIdx(es) && ToldAll(c, d, es, q, selfVer) && f == ApplyEntry(d, es[q], selfVer)
    ensures ToldAll(c, f, es, q + 1, selfVer)
  {
    EntryCalls(d, es[q], selfVer);
    assert !Among(es, q, es[q].idx);
    forall k {:trigger ToldAt(c, f, es, k, selfVer)} | 0 <= k < q + 1 ensures ToldAt(c, f, es, k, selfVer) {
      if k < q {
        assert ToldAt(c, d, es, k, selfVer);
        ToldAtStays(c, d, f, es, k, selfVer);
      } else {
        ToldNow(c, d, f, es, q, selfVer);
      }
    }
    forall idx | !Among(es, q + 1, idx) ensures WaitingAt(f, idx) == WaitingAt(c, idx) {
      NotAmong(es, q, idx);
    }
  }

  lemma NotAmong(es: seq<Entry>, q: nat, idx: nat)
    requires q < |es| && !Among(es, q + 1, idx)
    ensures !Among(es, q, idx) && es[q].idx != idx
  {
  }

  lemma ToldAtStays(c: Client, d: Client, f: Client, es: seq<Entry>, k: nat, selfVer: nat)
    requires ToldAt(c, d, es, k, selfVer) && d.fired <= f.fired
    ensures ToldAt(c, f, es, k, selfVer)
  {
    ToldStays(d.fired, f.fired, |c.fired| + CallsBefore(c, es, k, selfVer), WaitingAt(c, es[k].idx), es[k]);
  }

  lemma ToldNow(c: Client, d: Client, f: Client, es: seq<Entry>, q: nat, selfVer: nat)
    requires q < |es| && WaitingAt(d, es[q].idx) == WaitingAt(c, es[q].idx)
    requires |d.fired| == |c.fired| + CallsBefore(c, es, q, selfVer)
    requires !Raises(es[q].cmd, selfVer) ==> Tells(f.fired, |d.fired|, WaitingAt(d, es[q].idx), es[q])
    ensures ToldAt(c, f, es, q, selfVer)
  {
  }

  lemma ToldStays(a: seq<Fired>, b: seq<Fired>, at: nat, waiting: seq<Waiting>, e: Entry)
    requires a <= b
    ensures Tells(a, at, waiting, e) ==> Tells(b, at, waiting, e)
  {
  }

  lemma {:induction false} PassTells(c: Client, es: seq<Entry>, q: nat, selfVer: nat)
    requires q <= |es| && DistinctIdx(es)
    ensures ToldAll(c, ApplyEntries(c, es[..q], selfVer), es, q, selfVer)
  {
    if q > 0 {
      PassTells(c, es, q - 1, selfVer);
      assert es[..q][..q - 1] == es[..q - 1];
      ToldMore(c, ApplyEntries(c, es[..q - 1], selfVer), ApplyEntries(c, es[..q], selfVer), es, q - 1, selfVer);
    }
  }

  /** A pass over entries tells, in the order of the entries and for each in the order of
      subscription, exactly the callbacks that wait for those that do not raise. */
  lemma PassCalls(c: Client, es: seq<Entry>, selfVer: nat)
    requires DistinctIdx(es)
    ensures ToldAll(c, ApplyEntries(c, es, selfVer), es, |es|, selfVer)
  {
    PassTells(c, es, |es|, selfVer);
    assert es[..|es|] == es;
  }

  /** Everyone who waits for an entry that is due is told. */
  ghost predicate DueTold(c: Client, d: Client, r: Raft) {
    WellFormedLog(r.log) && r.commitIndex <= |r.log| ==> ToldAll(c, d, Due(r), |Due(r)|, r.selfVer)
  }

  lemma DueCalls(c: Client, r: Raft)
    requires |r.log| > 0
    ensures DueTold(c, ApplyEntries(c, Unapplied(r), r.selfVer), r)
  {
    if WellFormedLog(r.log) && r.commitIndex <= |r.log| {
      DueIsUnapplied(r);
      DueDistinct(r);
      PassCalls(c, Due(r), r.selfVer);
    }
  }

  // --------------------------------------------------------------- what else is told

  /** Somebody waits for a request that failed: its callback is told, or the node that
      sent it. */
  predicate ToldFailure(c: Client, d: Client, r: Raft, out: multiset<ClientPacket>, origin: Origin, reason: Reason) {
    match origin
    case Silent => d == c && out == multiset{}
    case Local(cb) => d == c.(fired := c.fired + [Fired(cb, Failure(reason))]) && out == multiset{}
    case Remote(node, id) =>
      && d == c
      && out == if node in r.peers then multiset{ClientPacket(r.id, node, ApplyResponse(id, Refused(reason)))} else multiset{}
  }

  lemma EnqueueCalls(c: Client, r: Raft, req: Request, capacity: nat)
    ensures var (d, out) := Enqueue(c, r, req, capacity);
            if |c.queue| < capacity then d == c.(queue := c.queue + [req]) && out == multiset{}
            else ToldFailure(c, d, r, out, req.origin, QueueFull)
  {
  }

  /** One command of the queue. */
  lemma ProcessCalls(c: Client, r: Raft)
    requires |r.log| > 0 && c.queue != []
    ensures var (d, q, out) := Process(c, r);
            var rest := c.(queue := c.queue[1..]);
            && (r.role == Leader ==> d.fired == c.fired && q.log == r.log + [Entry(c.queue[0].cmd, LastIdx(r.log) + 1, r.term)])
            && (r.role != Leader ==> q == r)
            && (r.role != Leader && r.leader.None? ==> ToldFailure(rest, d, r, out, c.queue[0].origin, MissingLeader))
            && (r.role != Leader && r.leader.Some? && c.queue[0].origin.Remote? ==>
                  ToldFailure(rest, d, r, out, c.queue[0].origin, NotLeader))
            && (r.role != Leader && r.leader.Some? && !c.queue[0].origin.Remote? ==> d.fired == c.fired)
  {
  }

  lemma AnswerCalls(c: Client, r: Raft, msg: ClientMsg)
    requires msg.ApplyResponse?
    ensures var d := OnApplyResponse(c, r, msg);
            d.fired == c.fired + if msg.reqId in c.waitingReply && msg.answer.Refused?
                                 then [Fired(c.waitingReply[msg.reqId], Failure(msg.answer.reason))] else []
  {
  }

  lemma LeaderChangedCalls(c: Client)
    ensures var d := OnLeaderChanged(c);
            && c.fired <= d.fired && d.waitingReply == map[]
            && (forall k :: |c.fired| <= k < |d.fired| ==> d.fired[k].outcome == Failure(LeaderChanged) && d.fired[k].cb in c.waitingReply.Values)
  {
  }

  // ------------------------------------------------------------ how a command is placed

  /** These callbacks wait for the index as well, behind those that did; for every other
      index it is the same ones as before. */
  ghost predicate WaitingMore(c: Client, d: Client, idx: nat, more: seq<Waiting>) {
    forall i {:trigger WaitingAt(d, i)} :: WaitingAt(d, i) == WaitingAt(c, i) + if i == idx then more else []
  }

  /** A leader puts the first command of its queue behind its log, and tells whoever
      waits the index and term of the entry. */
  lemma LeaderPlaces(c: Client, r: Raft)
    requires |r.log| > 0 && c.queue != [] && r.role == Leader
    ensures var (d, q, out) := Process(c, r);
            var idx := LastIdx(r.log) + 1;
            && d.queue == c.queue[1..] && q == r.(log := r.log + [Entry(c.queue[0].cmd, idx, r.term)])
            && d.waitingReply == c.waitingReply && d.fired == c.fired
            && match c.queue[0].origin
               case Silent => WaitingMore(c, d, idx, []) && out == multiset{}
               case Local(cb) => WaitingMore(c, d, idx, [Waiting(r.term, cb)]) && out == multiset{}
               case Remote(node, id) =>
                 && WaitingMore(c, d, idx, [])
                 && out == if node in r.peers then multiset{ClientPacket(r.id, node, ApplyResponse(id, Placed(idx, r.term)))} else multiset{}
  {
  }

  /** The round trip of a command that a follower forwards: the leader logs it, and once
      the answer is back, the callback waits at the follower for the index and term of
      that entry and for no reply, unless the follower has applied the index already. */
  lemma ForwardedIsPlaced(c: Client, f: Raft, lc: Client, l: Raft, capacity: nat)
    requires |f.log| > 0 && |l.log| > 0 && l.id in f.peers && f.id in l.peers && f.leader == Some(l.id)
    requires f.role != Leader && l.role == Leader && lc.queue == [] && capacity > 0
    requires c.queue != [] && c.queue[0].origin.Local? && c.counter + 1 !in c.waitingReply
    ensures var (d, g, out) := Process(c, f);
            var ask := ClientPacket(f.id, l.id, ApplyCommand(c.queue[0].cmd, Some(d.counter)));
            var (taken, none) := OnApplyCommand(lc, l, f.id, ask.msg, capacity);
            && g == f && out == multiset{ask} && none == multiset{} && taken.queue != []
            && var (led, m, back) := Process(taken, l);
            && var e := Entry(c.queue[0].cmd, LastIdx(l.log) + 1, l.term);
            && var answer := ClientPacket(l.id, f.id, ApplyResponse(d.counter, Placed(e.idx, e.term)));
            && m.log == l.log + [e] && back == multiset{answer} && led.queue == []
            && var h := OnApplyResponse(d, f, answer.msg);
            && h.queue == c.queue[1..] && h.waitingReply == c.waitingReply && h.fired == c.fired
            && WaitingMore(c, h, e.idx, if e.idx > f.lastApplied then [Waiting(e.term, c.queue[0].origin.cb)] else [])
  {
  }
}
