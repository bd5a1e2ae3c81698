/** Where a callback can get lost: an answer that places its command at an index
    that was applied already, and a command that raises when it is applied. Nothing
    else drops one. */
module RaftLoss {
  import opened Options
  import opened RaftTypes
  import opened RaftProtocol
  import opened RaftClient
  import opened RaftCallbacks
  import opened RaftRounds

  /** The callback is at spot fwd(s) now. */
  lemma HeldAt(c: Client, d: Client, cb: Callback, fwd: Spot -> Spot)
    requires Holds(c, cb) && forall s :: Held(c, s) == Some(cb) ==> Held(d, fwd(s)) == Some(cb)
    ensures Holds(d, cb)
  {
    var s :| Held(c, s) == Some(cb);
    assert Held(d, fwd(s)) == Some(cb);
  }

  lemma DequeueHolds(c: Client, cb: Callback)
    requires Holds(c, cb) && c.queue != []
    ensures Holds(c.(queue := c.queue[1..]), cb) || c.queue[0].origin == Local(cb)
  {
    var rest := c.(queue := c.queue[1..]);
    var s :| Held(c, s) == Some(cb);
    if s.Queued? {
      if s.i > 0 {
        assert Held(rest, Queued(s.i - 1)) == Some(cb);
      }
    } else {
      assert Held(rest, s) == Some(cb);
    }
  }

  lemma FailHolds(c: Client, r: Raft, origin: Origin, reason: Reason, cb: Callback)
    requires Holds(c, cb) || origin == Local(cb)
    ensures Holds(Fail(c, r, origin, reason).0, cb)
  {
    var d := Fail(c, r, origin, reason).0;
    if origin == Local(cb) {
      assert Held(d, Done(|c.fired|)) == Some(cb);
    } else {
      HeldAt(c, d, cb, (s: Spot) => s);
    }
  }

  lemma SubscribeHolds(c: Client, idx: nat, w: Waiting, cb: Callback)
    requires Holds(c, cb) || w.cb == cb
    ensures Holds(Subscribe(c, idx, w), cb)
  {
    var d := Subscribe(c, idx, w);
    var n := if idx in c.waitingCommit then |c.waitingCommit[idx]| else 0;
    if w.cb == cb {
      assert Held(d, Commit(idx, n)) == Some(cb);
    } else {
      HeldAt(c, d, cb, (s: Spot) => s);
    }
  }

  lemma ForwardHolds(c: Client, r: Raft, req: Request, leader: NodeId, cb: Callback)
    requires Numbered(c) && (Holds(c, cb) || req.origin == Local(cb))
    ensures Holds(Forward(c, r, req, leader).0, cb)
  {
    match req.origin
    case Silent =>
    case Remote(_, _) => FailHolds(c, r, req.origin, NotLeader, cb);
    case Local(own) =>
      var d := Forward(c, r, req, leader).0;
      if own == cb {
        assert Held(d, Reply(c.counter + 1)) == Some(cb);
      } else {
        HeldAt(c, d, cb, (s: Spot) => s);
      }
  }

  /** The command loop loses nothing. */
  lemma ProcessHolds(c: Client, r: Raft, cb: Callback)
    requires Sound(c) && |r.log| > 0 && c.queue != [] && Holds(c, cb)
    ensures Holds(Process(c, r).0, cb)
  {
    var req, rest := c.queue[0], c.(queue := c.queue[1..]);
    DequeueHolds(c, cb);
    if r.role == Leader {
      if req.origin.Local? {
        SubscribeHolds(rest, LastIdx(r.log) + 1, Waiting(r.term, req.origin.cb), cb);
      }
    } else if r.leader.Some? {
      ForwardHolds(rest, r, req, r.leader.value, cb);
    } else {
      FailHolds(rest, r, req.origin, MissingLeader, cb);
    }
  }

  /** Neither does the queue, full or not; and it takes up a new callback. */
  lemma EnqueueHolds(c: Client, r: Raft, req: Request, capacity: nat, cb: Callback)
    requires Holds(c, cb) || req.origin == Local(cb)
    ensures Holds(Enqueue(c, r, req, capacity).0, cb)
  {
    if |c.queue| >= capacity {
      FailHolds(c, r, req.origin, QueueFull, cb);
    } else {
      var d := Enqueue(c, r, req, capacity).0;
      if req.origin == Local(cb) {
        assert Held(d, Queued(|c.queue|)) == Some(cb);
      } else {
        HeldAt(c, d, cb, (s: Spot) => s);
      }
    }
  }

  lemma CalledAt(c: Client, d: Client, ids: seq<nat>, k: nat)
    requires k < |ids| && forall i :: 0 <= i < |ids| ==> ids[i] in c.waitingReply
    requires d.fired == c.fired + Told(c.waitingReply, ids)
    ensures Held(d, Done(|c.fired| + k)) == Some(c.waitingReply[ids[k]])
  {
  }

  lemma LeaderChangedCalls(c: Client, id: nat)
    requires Numbered(c) && id in c.waitingReply
    ensures Holds(OnLeaderChanged(c), c.waitingReply[id])
  {
    var ids := WaitingIds(c.waitingReply, 1, c.counter);
    var k :| 0 <= k < |ids| && ids[k] == id;
    LeaderChangedIs(c);
    CalledAt(c, OnLeaderChanged(c), ids, k);
  }

  lemma LeaderChangedRest(c: Client, s: Spot)
    requires !s.Reply? && Held(c, s).Some?
    ensures Held(OnLeaderChanged(c), s) == Held(c, s)
  {
    var d := OnLeaderChanged(c);
    assert d.queue == c.queue && d.waitingCommit == c.waitingCommit;
    assert |c.fired| <= |d.fired| && forall k :: 0 <= k < |c.fired| ==> d.fired[k] == c.fired[k];
  }

  /** Nor does a change of leader: the waiting callbacks are invoked. */
  lemma LeaderChangedHolds(c: Client, cb: Callback)
    requires Numbered(c) && Holds(c, cb)
    ensures Holds(OnLeaderChanged(c), cb)
  {
    var s :| Held(c, s) == Some(cb);
    if s.Reply? {
      LeaderChangedCalls(c, s.id);
    } else {
      LeaderChangedRest(c, s);
    }
  }

  // --------------------------------------------------------------- the two losses

  /** The leader's answer to this callback's request names an applied index. */
  predicate AnsweredTooLate(c: Client, r: Raft, msg: ClientMsg, cb: Callback)
    requires msg.ApplyResponse?
  {
    && msg.reqId in c.waitingReply && c.waitingReply[msg.reqId] == cb
    && msg.answer.Placed? && msg.answer.idx <= r.lastApplied
  }

  /** An answer loses a callback exactly when it is the answer to its request and
      names an index that was applied already. */
  lemma AnswerLosesIff(c: Client, r: Raft, msg: ClientMsg, cb: Callback)
    requires Sound(c) && msg.ApplyResponse? && Holds(c, cb)
    ensures Holds(OnApplyResponse(c, r, msg), cb) <==> !AnsweredTooLate(c, r, msg, cb)
  {
    if msg.reqId in c.waitingReply {
      var own := c.waitingReply[msg.reqId];
      var rest := c.(waitingReply := c.waitingReply - {msg.reqId});
      assert Held(c, Reply(msg.reqId)) == Some(own);
      if own == cb {
        forall s ensures Held(rest, s) != Some(cb) {
          assert Held(rest, s).Some? ==> Held(c, s) == Held(rest, s) && s != Reply(msg.reqId);
        }
        assert !Holds(rest, cb);
      } else {
        HeldAt(c, rest, cb, (s: Spot) => s);
      }
      match msg.answer
      case Refused(reason) =>
        if own == cb || Holds(rest, cb) {
          FailHolds(rest, r, Local(own), reason, cb);
        }
      case Placed(idx, term) =>
        if idx > r.lastApplied {
          SubscribeHolds(rest, idx, Waiting(term, own), cb);
        }
    }
  }

  /** The callback waits for an entry whose command raises. */
  ghost predicate WaitsForRaising(c: Client, entry: Entry, selfVer: nat, cb: Callback) {
    !Supported(entry.cmd, selfVer) && exists j :: Held(c, Commit(entry.idx, j)) == Some(cb)
  }

  /** Applying an entry loses a callback exactly when it waits for it and the
      command raises. */
  lemma EntryLosesIff(c: Client, entry: Entry, selfVer: nat, cb: Callback)
    requires Sound(c) && Holds(c, cb)
    ensures Holds(ApplyEntry(c, entry, selfVer), cb) <==> !WaitsForRaising(c, entry, selfVer, cb)
  {
    var d := ApplyEntry(c, entry, selfVer);
    var s :| Held(c, s) == Some(cb);
    if s.Commit? && s.idx == entry.idx {
      if Supported(entry.cmd, selfVer) {
        assert Held(d, Done(|c.fired| + s.j)) == Some(cb);
      } else {
        forall t ensures Held(d, t) != Some(cb) {
          assert Held(d, t).Some? ==> Held(c, t) == Held(d, t) && t != s;
        }
      }
    } else {
      assert Held(d, s) == Some(cb);
      forall j ensures Held(c, Commit(entry.idx, j)) != Some(cb) {
        assert Held(c, Commit(entry.idx, j)) == Held(c, s) ==> Commit(entry.idx, j) == s;
      }
    }
  }

  ghost predicate WaitsForRaisingIn(c: Client, es: seq<Entry>, selfVer: nat, cb: Callback) {
    exists i :: 0 <= i < |es| && WaitsForRaising(c, es[i], selfVer, cb)
  }

  ghost predicate DistinctIdx(es: seq<Entry>) {
    forall i, j :: 0 <= i < j < |es| ==> es[i].idx != es[j].idx
  }

  lemma {:induction false} OthersStillWait(c: Client, es: seq<Entry>, selfVer: nat, idx: nat)
    requires forall i :: 0 <= i < |es| ==> es[i].idx != idx
    ensures var d := ApplyEntries(c, es, selfVer);
            (idx in d.waitingCommit <==> idx in c.waitingCommit) && (idx in c.waitingCommit ==> d.waitingCommit[idx] == c.waitingCommit[idx])
    decreases |es|
  {
    if es != [] {
      OthersStillWait(c, es[..|es| - 1], selfVer, idx);
    }
  }

  /** The same for a pass over several entries. */
  lemma {:induction false} PassLosesIff(c: Client, es: seq<Entry>, selfVer: nat, cb: Callback)
    requires Sound(c) && Holds(c, cb) && DistinctIdx(es)
    ensures Holds(ApplyEntries(c, es, selfVer), cb) <==> !WaitsForRaisingIn(c, es, selfVer, cb)
    decreases |es|
  {
    if es != [] {
      var n := |es| - 1;
      var d := ApplyEntries(c, es[..n], selfVer);
      PassLosesIff(c, es[..n], selfVer, cb);
      ApplyEntriesKeep(c, es[..n], selfVer);
      ApplyEntryKeeps(d, es[n], selfVer);
      LastRaises(c, es, selfVer, cb);
      OthersStillWait(c, es[..n], selfVer, es[n].idx);
      assert forall j :: Held(d, Commit(es[n].idx, j)) == Held(c, Commit(es[n].idx, j));
      if Holds(d, cb) {
        EntryLosesIff(d, es[n], selfVer, cb);
      }
    }
  }

  lemma LastRaises(c: Client, es: seq<Entry>, selfVer: nat, cb: Callback)
    requires es != []
    ensures var n := |es| - 1;
            WaitsForRaisingIn(c, es, selfVer, cb) <==>
              WaitsForRaisingIn(c, es[..n], selfVer, cb) || WaitsForRaising(c, es[n], selfVer, cb)
  {
    var n := |es| - 1;
    if WaitsForRaisingIn(c, es[..n], selfVer, cb) {
      var i :| 0 <= i < n && WaitsForRaising(c, es[..n][i], selfVer, cb);
      assert WaitsForRaising(c, es[i], selfVer, cb);
    }
    if WaitsForRaisingIn(c, es, selfVer, cb) {
      var i :| 0 <= i < |es| && WaitsForRaising(c, es[i], selfVer, cb);
      if i < n {
        assert WaitsForRaising(c, es[..n][i], selfVer, cb);
      }
    }
  }
}
