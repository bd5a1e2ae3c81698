/** A callback is at one spot of one node's tables at a time, so it is invoked at
    most once. */
module RaftCallbacks {
  import opened Options
  import opened RaftTypes
  import opened RaftClient

  /** Where a callback can be: in the queue, waiting for a reply, waiting for an
      index, or already invoked. */
  datatype Spot = Queued(i: nat) | Reply(id: nat) | Commit(idx: nat, j: nat) | Done(k: nat)

  ghost function Held(c: Client, s: Spot): Option<Callback> {
    match s
    case Queued(i) => if i < |c.queue| && c.queue[i].origin.Local? then Some(c.queue[i].origin.cb) else None
    case Reply(id) => if id in c.waitingReply then Some(c.waitingReply[id]) else None
    case Commit(idx, j) =>
      if idx in c.waitingCommit && j < |c.waitingCommit[idx]| then Some(c.waitingCommit[idx][j].cb) else None
    case Done(k) => if k < |c.fired| then Some(c.fired[k].cb) else None
  }

  ghost predicate Holds(c: Client, cb: Callback) {
    exists s :: Held(c, s) == Some(cb)
  }

  ghost predicate Unique(c: Client) {
    forall a, b :: Held(c, a).Some? && Held(c, a) == Held(c, b) ==> a == b
  }

  /** Request ids are handed out in increasing order. */
  ghost predicate Numbered(c: Client) {
    forall id :: id in c.waitingReply ==> 1 <= id <= c.counter
  }

  ghost predicate Sound(c: Client) {
    Unique(c) && Numbered(c)
  }

  /** `back` says where each callback of d was in c. */
  ghost predicate Moved(c: Client, d: Client, back: Spot -> Spot) {
    && (forall s :: Held(d, s).Some? ==> Held(c, back(s)) == Held(d, s))
    && (forall a, b :: Held(d, a).Some? && Held(d, b).Some? && back(a) == back(b) ==> a == b)
  }

  /** d holds no callback that c did not hold. */
  ghost predicate NoNewCallbacks(c: Client, d: Client) {
    forall cb: Callback :: Holds(d, cb) ==> Holds(c, cb)
  }

  lemma MovedKeeps(c: Client, d: Client, back: Spot -> Spot)
    requires Unique(c) && Moved(c, d, back)
    ensures Unique(d) && NoNewCallbacks(c, d)
  {
    forall a, b | Held(d, a).Some? && Held(d, a) == Held(d, b) ensures a == b {
      assert Held(c, back(a)) == Held(c, back(b));
    }
    forall cb: Callback | Holds(d, cb) ensures Holds(c, cb) {
      var s :| Held(d, s) == Some(cb);
      assert Held(c, back(s)) == Some(cb);
    }
  }

  /** d holds one more callback than c, at spot `to`. */
  lemma AddedKeeps(c: Client, d: Client, cb: Callback, to: Spot)
    requires Unique(c) && !Holds(c, cb)
    requires forall s :: Held(d, s).Some? ==> Held(d, s) == Held(c, s) || (s == to && Held(d, s) == Some(cb))
    ensures Unique(d) && forall x: Callback :: Holds(d, x) ==> Holds(c, x) || x == cb
  {
    forall a, b | Held(d, a).Some? && Held(d, a) == Held(d, b) ensures a == b {
      assert Held(c, a) == Held(d, a) || Held(c, b) == Held(d, b) || (a == to && b == to);
    }
    forall x: Callback | Holds(d, x) ensures Holds(c, x) || x == cb {
      var s :| Held(d, s) == Some(x);
    }
  }

  /** Taking the front request takes its callback out of the tables. */
  lemma DequeueKeeps(c: Client)
    requires Sound(c) && c.queue != []
    ensures var rest := c.(queue := c.queue[1..]);
            && Sound(rest) && NoNewCallbacks(c, rest)
            && (c.queue[0].origin.Local? ==>
                  Holds(c, c.queue[0].origin.cb) && !Holds(rest, c.queue[0].origin.cb))
  {
    var rest := c.(queue := c.queue[1..]);
    var back := (s: Spot) => match s
      case Queued(i) => Queued(i + 1)
      case _ => s;
    MovedKeeps(c, rest, back);
    if c.queue[0].origin.Local? {
      assert Held(c, Queued(0)) == Some(c.queue[0].origin.cb);
      forall s ensures Held(rest, s) != Some(c.queue[0].origin.cb) {
        if Held(rest, s).Some? {
          assert Held(c, back(s)) == Held(rest, s);
        }
      }
    }
  }

  lemma FailKeeps(c: Client, r: Raft, origin: Origin, reason: Reason)
    requires Sound(c) && (origin.Local? ==> !Holds(c, origin.cb))
    ensures var d := Fail(c, r, origin, reason).0;
            Sound(d) && forall cb: Callback :: Holds(d, cb) ==> Holds(c, cb) || origin == Local(cb)
  {
    if origin.Local? {
      AddedKeeps(c, Fail(c, r, origin, reason).0, origin.cb, Done(|c.fired|));
    }
  }

  lemma SubscribeKeeps(c: Client, idx: nat, w: Waiting)
    requires Sound(c) && !Holds(c, w.cb)
    ensures var d := Subscribe(c, idx, w);
            Sound(d) && forall cb: Callback :: Holds(d, cb) ==> Holds(c, cb) || cb == w.cb
  {
    var n := if idx in c.waitingCommit then |c.waitingCommit[idx]| else 0;
    AddedKeeps(c, Subscribe(c, idx, w), w.cb, Commit(idx, n));
  }

  lemma ForwardKeeps(c: Client, r: Raft, req: Request, leader: NodeId)
    requires Sound(c) && (req.origin.Local? ==> !Holds(c, req.origin.cb))
    ensures var d := Forward(c, r, req, leader).0;
            Sound(d) && forall cb: Callback :: Holds(d, cb) ==> Holds(c, cb) || req.origin == Local(cb)
  {
    if req.origin.Local? {
      AddedKeeps(c, Forward(c, r, req, leader).0, req.origin.cb, Reply(c.counter + 1));
    }
  }

  lemma ProcessKeeps(c: Client, r: Raft)
    requires Sound(c) && |r.log| > 0 && c.queue != []
    ensures var d := Process(c, r).0;
            Sound(d) && NoNewCallbacks(c, d)
  {
    var req, rest := c.queue[0], c.(queue := c.queue[1..]);
    DequeueKeeps(c);
    if r.role == Leader {
      if req.origin.Local? {
        SubscribeKeeps(rest, LastIdx(r.log) + 1, Waiting(r.term, req.origin.cb));
      }
    } else if r.leader.Some? {
      ForwardKeeps(rest, r, req, r.leader.value);
    } else {
      FailKeeps(rest, r, req.origin, MissingLeader);
    }
  }

  /** A queued command brings at most its own, new, callback. */
  lemma EnqueueKeeps(c: Client, r: Raft, req: Request, capacity: nat)
    requires Sound(c) && (req.origin.Local? ==> !Holds(c, req.origin.cb))
    ensures var d := Enqueue(c, r, req, capacity).0;
            Sound(d) && forall cb: Callback :: Holds(d, cb) ==> Holds(c, cb) || req.origin == Local(cb)
  {
    if |c.queue| >= capacity {
      FailKeeps(c, r, req.origin, QueueFull);
    } else {
      var d := Enqueue(c, r, req, capacity).0;
      if req.origin.Local? {
        AddedKeeps(c, d, req.origin.cb, Queued(|c.queue|));
      } else {
        MovedKeeps(c, d, (s: Spot) => s);
      }
    }
  }

  lemma ResponseKeepsCallbacks(c: Client, r: Raft, msg: ClientMsg)
    requires Sound(c) && msg.ApplyResponse?
    ensures var d := OnApplyResponse(c, r, msg);
            Sound(d) && NoNewCallbacks(c, d)
  {
    if msg.reqId in c.waitingReply {
      var cb := c.waitingReply[msg.reqId];
      var rest := c.(waitingReply := c.waitingReply - {msg.reqId});
      assert Held(c, Reply(msg.reqId)) == Some(cb);
      MovedKeeps(c, rest, (s: Spot) => s);
      assert !Holds(rest, cb) by {
        forall s ensures Held(rest, s) != Some(cb) {
          assert Held(rest, s).Some? ==> Held(c, s) == Held(rest, s);
        }
      }
      match msg.answer
      case Refused(reason) => FailKeeps(rest, r, Local(cb), reason);
      case Placed(idx, term) => SubscribeKeeps(rest, idx, Waiting(term, cb));
    }
  }

  /** Distinct waiting callbacks are invoked one after the other. */
  lemma RepliesMove(c: Client, d: Client, ids: seq<nat>)
    requires Unique(c)
    requires forall i :: 0 <= i < |ids| ==> ids[i] in c.waitingReply
    requires forall i, j :: 0 <= i < j < |ids| ==> ids[i] < ids[j]
    requires d.queue == c.queue && d.waitingReply == map[] && d.waitingCommit == c.waitingCommit
    requires |d.fired| == |c.fired| + |ids|
    requires forall k :: 0 <= k < |c.fired| ==> d.fired[k] == c.fired[k]
    requires forall i :: 0 <= i < |ids| ==> d.fired[|c.fired| + i].cb == c.waitingReply[ids[i]]
    ensures Unique(d) && NoNewCallbacks(c, d)
  {
    var n := |c.fired|;
    var back := (s: Spot) => match s
      case Done(k) => if n <= k < n + |ids| then Reply(ids[k - n]) else s
      case _ => s;
    forall s | Held(d, s).Some? ensures Held(c, back(s)) == Held(d, s) {
      if s.Done? && n <= s.k {
        assert d.fired[n + (s.k - n)].cb == c.waitingReply[ids[s.k - n]];
      }
    }
    MovedKeeps(c, d, back);
  }

  lemma LeaderChangedKeeps(c: Client)
    requires Sound(c)
    ensures var d := OnLeaderChanged(c);
            Sound(d) && NoNewCallbacks(c, d)
  {
    RepliesMove(c, OnLeaderChanged(c), WaitingIds(c.waitingReply, 1, c.counter));
  }

  lemma ApplyEntryKeeps(c: Client, entry: Entry, selfVer: nat)
    requires Sound(c)
    ensures var d := ApplyEntry(c, entry, selfVer);
            Sound(d) && NoNewCallbacks(c, d)
  {
    var n := |c.fired|;
    var back := (s: Spot) => match s
      case Done(k) => if n <= k then Commit(entry.idx, k - n) else s
      case _ => s;
    MovedKeeps(c, ApplyEntry(c, entry, selfVer), back);
  }

  lemma {:induction false} ApplyEntriesKeep(c: Client, es: seq<Entry>, selfVer: nat)
    requires Sound(c)
    ensures var d := ApplyEntries(c, es, selfVer);
            Sound(d) && NoNewCallbacks(c, d)
  {
    if es != [] {
      ApplyEntriesKeep(c, es[..|es| - 1], selfVer);
      ApplyEntryKeeps(ApplyEntries(c, es[..|es| - 1], selfVer), es[|es| - 1], selfVer);
    }
  }
}
