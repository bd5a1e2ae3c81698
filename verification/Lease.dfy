/** The replicated lock manager: a lock is a lease that its owner keeps prolonging,
    and every replica applies the same commands, some later than others. */
module Lease {
  import opened Options

  type LockPath = nat
  type ClientId = nat

  datatype Holding = Holding(client: ClientId, time: int)

  type Locks = map<LockPath, Holding>

  datatype Command =
    | Acquire(path: LockPath, client: ClientId, time: int)
    | Prolongate(client: ClientId, time: int)
    | Release(path: LockPath, client: ClientId)

  predicate Expired(h: Holding, now: int, autoUnlock: int) {
    now - h.time > autoUnlock
  }

  predicate Free(locks: Locks, path: LockPath, client: ClientId, now: int, autoUnlock: int) {
    path !in locks || Expired(locks[path], now, autoUnlock) || locks[path].client == client
  }

  function AfterCommand(locks: Locks, c: Command, autoUnlock: int): Locks {
    match c
    case Acquire(path, client, time) =>
      if Free(locks, path, client, time, autoUnlock) then locks[path := Holding(client, time)] else locks
    case Prolongate(client, time) =>
      map path | path in locks && !Expired(locks[path], time, autoUnlock) ::
        if locks[path].client == client then Holding(client, time) else locks[path]
    case Release(path, client) =>
      if path in locks && locks[path].client == client then locks - {path} else locks
  }

  predicate Acquired(locks: Locks, path: LockPath, client: ClientId, now: int, autoUnlock: int) {
    path in locks && locks[path].client == client && now - locks[path].time < autoUnlock
  }

  class ReplLockManagerImpl {
    const autoUnlockTime: int
    var locks: Locks

    constructor (autoUnlockTime: int)
      ensures this.autoUnlockTime == autoUnlockTime && locks == map[]
    {
      this.autoUnlockTime, locks := autoUnlockTime, map[];
    }

    method DoAcquire(path: LockPath, client: ClientId, currentTime: int) returns (granted: bool)
      modifies this
      ensures locks == AfterCommand(old(locks), Acquire(path, client, currentTime), autoUnlockTime)
      ensures granted <==> path !in old(locks) || old(locks)[path].client == client || currentTime - old(locks)[path].time > autoUnlockTime
      ensures locks == if granted then old(locks)[path := Holding(client, currentTime)] else old(locks)
    {
      var existing := if path in locks then Some(locks[path]) else None;
      if existing.Some? {
        if currentTime - existing.value.time > autoUnlockTime {
          existing := None;
        }
      }
      if existing.None? || existing.value.client == client {
        locks := locks[path := Holding(client, currentTime)];
        return true;
      }
      return false;
    }

    /** Over the paths as they were when the loop began. */
    method DoProlongate(client: ClientId, currentTime: int)
      modifies this
      ensures locks == AfterCommand(old(locks), Prolongate(client, currentTime), autoUnlockTime)
      ensures forall p :: p in locks <==> p in old(locks) && currentTime - old(locks)[p].time <= autoUnlockTime
      ensures forall p :: p in locks ==> locks[p] == if old(locks)[p].client == client then Holding(client, currentTime) else old(locks)[p]
    {
      var todo := locks.Keys;
      while todo != {}
        invariant todo <= old(locks).Keys
        invariant forall p :: p in todo ==> p in locks && locks[p] == old(locks)[p]
        invariant forall p :: p !in todo ==>
                    (p in locks <==> p in AfterCommand(old(locks), Prolongate(client, currentTime), autoUnlockTime))
        invariant forall p :: p !in todo && p in locks ==>
                    locks[p] == AfterCommand(old(locks), Prolongate(client, currentTime), autoUnlockTime)[p]
        decreases |todo|
      {
        var path :| path in todo;
        todo := todo - {path};
        var held := locks[path];
        if currentTime - held.time > autoUnlockTime {
          locks := locks - {path};
        } else if held.client == client {
          locks := locks[path := Holding(client, currentTime)];
        }
      }
    }

    method DoRelease(path: LockPath, client: ClientId)
      modifies this
      ensures locks == AfterCommand(old(locks), Release(path, client), autoUnlockTime)
      ensures locks == if path in old(locks) && old(locks)[path].client == client then old(locks) - {path} else old(locks)
    {
      if path in locks && locks[path].client == client {
        locks := locks - {path};
      }
    }

    method IsAcquired(path: LockPath, client: ClientId, currentTime: int) returns (held: bool)
      ensures held <==> Acquired(locks, path, client, currentTime, autoUnlockTime)
      ensures held <==> path in locks && locks[path].client == client && currentTime - locks[path].time < autoUnlockTime
    {
      held := false;
      if path in locks {
        if locks[path].client == client {
          if currentTime - locks[path].time < autoUnlockTime {
            held := true;
          }
        }
      }
    }
  }

  // ------------------------------------------------------------------------ replicas

  /** The locks of a replica that has applied these commands of the log. */
  function Applied(commands: seq<Command>, autoUnlock: int): Locks
    decreases |commands|
  {
    if commands == [] then map[]
    else AfterCommand(Applied(commands[..|commands| - 1], autoUnlock), commands[|commands| - 1], autoUnlock)
  }

  predicate Timed(c: Command) {
    !c.Release?
  }

  /** The clock of one client does not run backwards along the log. */
  ghost predicate Ordered(commands: seq<Command>, client: ClientId) {
    forall i, j :: 0 <= i < j < |commands| && Timed(commands[i]) && Timed(commands[j])
                   && commands[i].client == client && commands[j].client == client
                   ==> commands[i].time <= commands[j].time
  }

  ghost predicate NoneAfter(commands: seq<Command>, now: int) {
    forall i :: 0 <= i < |commands| && Timed(commands[i]) ==> commands[i].time <= now
  }

  /** The client gives the lock back in one of these commands. */
  ghost predicate Releases(commands: seq<Command>, path: LockPath, client: ClientId) {
    exists i :: 0 <= i < |commands| && commands[i] == Release(path, client)
  }

  lemma {:induction false} TimeWasSent(commands: seq<Command>, autoUnlock: int, path: LockPath) returns (i: nat)
    requires path in Applied(commands, autoUnlock)
    ensures i < |commands| && Timed(commands[i])
    ensures Applied(commands, autoUnlock)[path] == Holding(commands[i].client, commands[i].time)
    decreases |commands|
  {
    var last := |commands| - 1;
    var before := Applied(commands[..last], autoUnlock);
    if path in before && before[path] == Applied(commands, autoUnlock)[path] {
      i := TimeWasSent(commands[..last], autoUnlock, path);
    } else {
      i := last;
    }
  }

  /** While its lease runs, the owner keeps the lock along the log, with a time that
      only moves forward. */
  lemma {:induction false} OwnerKeepsLock(commands: seq<Command>, n: nat, autoUnlock: int, path: LockPath, client: ClientId, now: int)
    requires n <= |commands| && Ordered(commands, client) && NoneAfter(commands, now)
    requires Acquired(Applied(commands[..n], autoUnlock), path, client, now, autoUnlock)
    requires !Releases(commands[n..], path, client)
    ensures Acquired(Applied(commands, autoUnlock), path, client, now, autoUnlock)
    decreases |commands|
  {
    if n == |commands| {
      assert commands[..n] == commands;
    } else {
      var last := |commands| - 1;
      assert commands[..last][..n] == commands[..n];
      NotReleased(commands, n, path, client);
      OwnerKeepsLock(commands[..last], n, autoUnlock, path, client, now);
      var i := TimeWasSent(commands[..last], autoUnlock, path);
      assert commands[..last][i] == commands[i];
      assert Timed(commands[last]) && commands[last].client == client ==> commands[i].time <= commands[last].time;
    }
  }

  lemma NotReleased(commands: seq<Command>, n: nat, path: LockPath, client: ClientId)
    requires n < |commands| && !Releases(commands[n..], path, client)
    ensures commands[|commands| - 1] != Release(path, client)
    ensures !Releases(commands[..|commands| - 1][n..], path, client)
  {
    var last := |commands| - 1;
    assert commands[n..][last - n] == commands[last];
    forall i | 0 <= i < last - n ensures commands[..last][n..][i] != Release(path, client) {
      assert commands[n..][i] == commands[..last][n..][i];
    }
  }

  // --------------------------------------------------- what ends a holding, exactly

  /** The command ends this holding of the path for whoever looks at time `now`: its
      owner gives it back, another acquires it or anyone prolongates when it has run
      out by the time of the command, or its owner renews it with a time whose lease is
      over by `now`. */
  predicate Ends(h: Holding, c: Command, path: LockPath, now: int, autoUnlock: int) {
    match c
    case Release(p, client) => p == path && client == h.client
    case Acquire(p, client, time) =>
      p == path && if client == h.client then now - time >= autoUnlock else Expired(h, time, autoUnlock)
    case Prolongate(client, time) =>
      Expired(h, time, autoUnlock) || (client == h.client && now - time >= autoUnlock)
  }

  /** One command takes the lock from its holder exactly when it ends the holding. */
  lemma StepKeepsIff(locks: Locks, c: Command, autoUnlock: int, path: LockPath, client: ClientId, now: int)
    requires Acquired(locks, path, client, now, autoUnlock)
    ensures Acquired(AfterCommand(locks, c, autoUnlock), path, client, now, autoUnlock) <==>
              !Ends(locks[path], c, path, now, autoUnlock)
  {
  }

  ghost predicate EndsAt(commands: seq<Command>, k: nat, autoUnlock: int, path: LockPath, now: int) {
    && k < |commands|
    && var locks := Applied(commands[..k], autoUnlock);
    path in locks && Ends(locks[path], commands[k], path, now, autoUnlock)
  }

  ghost predicate HoldsAt(commands: seq<Command>, m: nat, autoUnlock: int, path: LockPath, client: ClientId, now: int) {
    m <= |commands| && Acquired(Applied(commands[..m], autoUnlock), path, client, now, autoUnlock)
  }

  /** Every replica that has applied n commands or more sees the client hold the lock. */
  ghost predicate HoldsFrom(commands: seq<Command>, n: nat, autoUnlock: int, path: LockPath, client: ClientId, now: int) {
    forall m: nat :: n <= m <= |commands| ==> HoldsAt(commands, m, autoUnlock, path, client, now)
  }

  lemma AppliedNext(commands: seq<Command>, k: nat, autoUnlock: int)
    requires k < |commands|
    ensures Applied(commands[..k + 1], autoUnlock) == AfterCommand(Applied(commands[..k], autoUnlock), commands[k], autoUnlock)
  {
    assert commands[..k + 1][..k] == commands[..k];
  }

  lemma HoldsNextIff(commands: seq<Command>, k: nat, autoUnlock: int, path: LockPath, client: ClientId, now: int)
    requires k < |commands| && HoldsAt(commands, k, autoUnlock, path, client, now)
    ensures HoldsAt(commands, k + 1, autoUnlock, path, client, now) <==> !EndsAt(commands, k, autoUnlock, path, now)
  {
    AppliedNext(commands, k, autoUnlock);
    StepKeepsIff(Applied(commands[..k], autoUnlock), commands[k], autoUnlock, path, client, now);
  }

  lemma {:induction false} HoldsUpTo(commands: seq<Command>, n: nat, m: nat, autoUnlock: int, path: LockPath, client: ClientId, now: int)
    requires n <= m <= |commands| && HoldsAt(commands, n, autoUnlock, path, client, now)
    requires forall k: nat :: n <= k < |commands| ==> !EndsAt(commands, k, autoUnlock, path, now)
    ensures HoldsAt(commands, m, autoUnlock, path, client, now)
    decreases m
  {
    if m > n {
      HoldsUpTo(commands, n, m - 1, autoUnlock, path, client, now);
      HoldsNextIff(commands, m - 1, autoUnlock, path, client, now);
    }
  }

  /** Whatever the clocks do: a holder keeps its lock on every longer part of the log
      if and only if no command behind it ends the holding of that moment. */
  lemma HeldUntilEnded(commands: seq<Command>, n: nat, autoUnlock: int, path: LockPath, client: ClientId, now: int)
    requires n <= |commands| && HoldsAt(commands, n, autoUnlock, path, client, now)
    ensures HoldsFrom(commands, n, autoUnlock, path, client, now) <==>
              forall k: nat :: n <= k < |commands| ==> !EndsAt(commands, k, autoUnlock, path, now)
  {
    if HoldsFrom(commands, n, autoUnlock, path, client, now) {
      forall k: nat | n <= k < |commands| ensures !EndsAt(commands, k, autoUnlock, path, now) {
        assert HoldsAt(commands, k, autoUnlock, path, client, now) && HoldsAt(commands, k + 1, autoUnlock, path, client, now);
        HoldsNextIff(commands, k, autoUnlock, path, client, now);
      }
    }
    if forall k: nat :: n <= k < |commands| ==> !EndsAt(commands, k, autoUnlock, path, now) {
      forall m: nat | n <= m <= |commands| ensures HoldsAt(commands, m, autoUnlock, path, client, now) {
        HoldsUpTo(commands, n, m, autoUnlock, path, client, now);
      }
    }
  }

  lemma KeepsAt(commands: seq<Command>, n: nat, m: nat, autoUnlock: int, path: LockPath, client: ClientId, now: int)
    requires n <= m <= |commands| && Ordered(commands, client) && NoneAfter(commands, now)
    requires HoldsAt(commands, n, autoUnlock, path, client, now) && !Releases(commands[n..], path, client)
    ensures HoldsAt(commands, m, autoUnlock, path, client, now)
  {
    assert commands[..m][..n] == commands[..n];
    forall i | 0 <= i < m - n ensures commands[..m][n..][i] != Release(path, client) {
      assert commands[n..][i] == commands[..m][n..][i];
    }
    OwnerKeepsLock(commands[..m], n, autoUnlock, path, client, now);
  }

  /** Where the clocks behave, a holder keeps its lock on every longer part of the log
      if and only if it does not give it back there. */
  lemma HeldUntilReleased(commands: seq<Command>, n: nat, autoUnlock: int, path: LockPath, client: ClientId, now: int)
    requires n <= |commands| && Ordered(commands, client) && NoneAfter(commands, now)
    requires HoldsAt(commands, n, autoUnlock, path, client, now)
    ensures HoldsFrom(commands, n, autoUnlock, path, client, now) <==> !Releases(commands[n..], path, client)
  {
    if !Releases(commands[n..], path, client) {
      forall m: nat | n <= m <= |commands| ensures HoldsAt(commands, m, autoUnlock, path, client, now) {
        KeepsAt(commands, n, m, autoUnlock, path, client, now);
      }
    } else if HoldsFrom(commands, n, autoUnlock, path, client, now) {
      var i :| 0 <= i < |commands[n..]| && commands[n..][i] == Release(path, client);
      assert commands[n + i] == Release(path, client) && HoldsAt(commands, n + i, autoUnlock, path, client, now);
      assert HoldsAt(commands, n + i + 1, autoUnlock, path, client, now);
      HoldsNextIff(commands, n + i, autoUnlock, path, client, now);
      assert false;
    }
  }

  // ------------------------------------------------------------------- two holders

  /** The command makes a client other than this one the holder at time `now`: it gets
      the lock, or renews a holding that it has, with a lease that still runs then. */
  predicate HandsOver(locks: Locks, c: Command, path: LockPath, client: ClientId, now: int, autoUnlock: int) {
    match c
    case Release(_, _) => false
    case Acquire(p, other, time) =>
      p == path && other != client && Free(locks, path, other, time, autoUnlock) && now - time < autoUnlock
    case Prolongate(other, time) =>
      && path in locks && locks[path].client == other != client
      && !Expired(locks[path], time, autoUnlock) && now - time < autoUnlock
  }

  ghost predicate HandsOverAt(commands: seq<Command>, k: nat, autoUnlock: int, path: LockPath, client: ClientId, now: int) {
    k < |commands| && HandsOver(Applied(commands[..k], autoUnlock), commands[k], path, client, now, autoUnlock)
  }

  /** Someone else holds the lock. */
  predicate Rivalled(locks: Locks, path: LockPath, client: ClientId, now: int, autoUnlock: int) {
    path in locks && locks[path].client != client && Acquired(locks, path, locks[path].client, now, autoUnlock)
  }

  ghost predicate RivalledAt(commands: seq<Command>, m: nat, autoUnlock: int, path: LockPath, client: ClientId, now: int) {
    m <= |commands| && Rivalled(Applied(commands[..m], autoUnlock), path, client, now, autoUnlock)
  }

  lemma RivalNextIff(commands: seq<Command>, k: nat, autoUnlock: int, path: LockPath, client: ClientId, now: int)
    requires k < |commands| && !RivalledAt(commands, k, autoUnlock, path, client, now)
    ensures RivalledAt(commands, k + 1, autoUnlock, path, client, now) <==> HandsOverAt(commands, k, autoUnlock, path, client, now)
  {
    AppliedNext(commands, k, autoUnlock);
  }

  lemma {:induction false} NoRivalUpTo(commands: seq<Command>, n: nat, m: nat, autoUnlock: int, path: LockPath, client: ClientId, now: int)
    requires n <= m <= |commands| && !RivalledAt(commands, n, autoUnlock, path, client, now)
    requires forall k: nat :: n <= k < |commands| ==> !HandsOverAt(commands, k, autoUnlock, path, client, now)
    ensures !RivalledAt(commands, m, autoUnlock, path, client, now)
    decreases m
  {
    if m > n {
      NoRivalUpTo(commands, n, m - 1, autoUnlock, path, client, now);
      RivalNextIff(commands, m - 1, autoUnlock, path, client, now);
    }
  }

  /** Whatever the clocks do: while a replica that lags at n sees the client hold the
      lock, no replica ahead of it sees another holder if and only if no command behind
      n hands the lock over. */
  lemma OneHolderIff(commands: seq<Command>, n: nat, autoUnlock: int, path: LockPath, client: ClientId, now: int)
    requires n <= |commands| && HoldsAt(commands, n, autoUnlock, path, client, now)
    ensures (forall m: nat :: n <= m <= |commands| ==> !RivalledAt(commands, m, autoUnlock, path, client, now)) <==>
              forall k: nat :: n <= k < |commands| ==> !HandsOverAt(commands, k, autoUnlock, path, client, now)
  {
    if forall m: nat :: n <= m <= |commands| ==> !RivalledAt(commands, m, autoUnlock, path, client, now) {
      forall k: nat | n <= k < |commands| ensures !HandsOverAt(commands, k, autoUnlock, path, client, now) {
        assert !RivalledAt(commands, k, autoUnlock, path, client, now) && !RivalledAt(commands, k + 1, autoUnlock, path, client, now);
        RivalNextIff(commands, k, autoUnlock, path, client, now);
      }
    }
    if forall k: nat :: n <= k < |commands| ==> !HandsOverAt(commands, k, autoUnlock, path, client, now) {
      forall m: nat | n <= m <= |commands| ensures !RivalledAt(commands, m, autoUnlock, path, client, now) {
        NoRivalUpTo(commands, n, m, autoUnlock, path, client, now);
      }
    }
  }

  /** A replica that lags at n and one that has all of the log never grant the same
      lock to two clients at one time, unless the first owner gave it back in
      between. */
  lemma LeaseIsExclusive(commands: seq<Command>, n: nat, autoUnlock: int, path: LockPath, client: ClientId, other: ClientId, now: int)
    requires n <= |commands| && Ordered(commands, client) && NoneAfter(commands, now)
    requires Acquired(Applied(commands[..n], autoUnlock), path, client, now, autoUnlock) && other != client
    ensures Acquired(Applied(commands, autoUnlock), path, other, now, autoUnlock) ==> Releases(commands[n..], path, client)
  {
    HeldUntilReleased(commands, n, autoUnlock, path, client, now);
    assert commands[..|commands|] == commands;
    assert HoldsFrom(commands, n, autoUnlock, path, client, now) ==> HoldsAt(commands, |commands|, autoUnlock, path, client, now);
  }

  /** Both conditions on the clocks are needed. With a clock that runs backwards, two clients hold
      the lock at once. */
  lemma BackwardClockBreaksLease()
    ensures var commands := [Acquire(0, 1, 10), Acquire(0, 1, 0), Acquire(0, 2, 10)];
            && NoneAfter(commands, 10) && !Releases(commands, 0, 1)
            && Acquired(Applied(commands[..1], 5), 0, 1, 10, 5) && Acquired(Applied(commands, 5), 0, 2, 10, 5)
  {
    var commands := [Acquire(0, 1, 10), Acquire(0, 1, 0), Acquire(0, 2, 10)];
    assert commands[..2][..1] == commands[..1] && commands[..1][..0] == [];
    assert Applied(commands[..1], 5) == map[0 := Holding(1, 10)];
    assert Applied(commands[..2], 5) == map[0 := Holding(1, 0)];
    assert Applied(commands, 5) == map[0 := Holding(2, 10)];
  }

  /** With a command from the future, the lease is over on one replica while it
      still runs on another. */
  lemma FutureCommandBreaksLease()
    ensures var commands := [Acquire(0, 1, 10), Acquire(0, 2, 16)];
            && Ordered(commands, 1) && !Releases(commands, 0, 1)
            && Acquired(Applied(commands[..1], 5), 0, 1, 10, 5) && Acquired(Applied(commands, 5), 0, 2, 10, 5)
  {
    var commands := [Acquire(0, 1, 10), Acquire(0, 2, 16)];
    assert commands[..1][..0] == [];
    assert Applied(commands[..1], 5) == map[0 := Holding(1, 10)];
    assert Applied(commands, 5) == map[0 := Holding(2, 16)];
  }

  /** With clocks that behave, a lock that was given back has another holder while
      the lease of the first still runs where the release has not arrived. */
  lemma ReleaseBreaksLease()
    ensures var commands := [Acquire(0, 1, 10), Release(0, 1), Acquire(0, 2, 10)];
            && (forall client :: Ordered(commands, client)) && NoneAfter(commands, 10)
            && Acquired(Applied(commands[..1], 5), 0, 1, 10, 5) && Acquired(Applied(commands, 5), 0, 2, 10, 5)
  {
    var commands := [Acquire(0, 1, 10), Release(0, 1), Acquire(0, 2, 10)];
    assert commands[..2][..1] == commands[..1] && commands[..1][..0] == [];
    assert Applied(commands[..1], 5) == map[0 := Holding(1, 10)];
    assert 0 !in Applied(commands[..2], 5);
    assert 0 in Applied(commands, 5) && Applied(commands, 5)[0] == Holding(2, 10);
  }
}
