/** Dynamic membership on one node: changes take effect when they are logged, and
    a truncation undoes the changes it drops, newest first. */
module Membership {
  import opened Lists
  import opened Options

  type NodeId = nat

  datatype Change = Add(node: NodeId) | Remove(node: NodeId) | Unknown

  /** A log entry asks for a change, or is some other command. */
  type Item = Option<Change>

  // ----------------------------------------------------------- sets of addresses

  function Opposite(c: Change): Change {
    match c
    case Add(n) => Remove(n)
    case Remove(n) => Add(n)
    case Unknown => Unknown
  }

  /** Whether a change does anything to a node that knows `others`. */
  predicate Effective(self: Option<NodeId>, others: set<NodeId>, c: Change) {
    match c
    case Add(n) => Some(n) != self && n !in others
    case Remove(n) => Some(n) != self && n in others
    case Unknown => false
  }

  function Changed(self: Option<NodeId>, others: set<NodeId>, c: Change): set<NodeId> {
    if !Effective(self, others, c) then others
    else if c.Add? then others + {c.node}
    else others - {c.node}
  }

  function Step(self: Option<NodeId>, others: set<NodeId>, item: Item): set<NodeId> {
    if item.Some? then Changed(self, others, item.value) else others
  }

  function StepBack(self: Option<NodeId>, others: set<NodeId>, item: Item): set<NodeId> {
    if item.Some? then Changed(self, others, Opposite(item.value)) else others
  }

  /** Entries applied in order. */
  function Applied(self: Option<NodeId>, others: set<NodeId>, items: seq<Item>): set<NodeId>
    decreases |items|
  {
    if items == [] then others
    else Step(self, Applied(self, others, items[..|items| - 1]), items[|items| - 1])
  }

  /** Entries undone, the last one first. */
  function Undone(self: Option<NodeId>, others: set<NodeId>, items: seq<Item>): set<NodeId>
    decreases |items|
  {
    if items == [] then others
    else Undone(self, StepBack(self, others, items[|items| - 1]), items[..|items| - 1])
  }

  /** The members of the cluster according to a log: itself included. */
  function Cluster(start: set<NodeId>, log: seq<Item>): set<NodeId> {
    Applied(None, start, log)
  }

  /** Every logged change did something to the cluster it was logged in. */
  ghost predicate AllEffective(start: set<NodeId>, log: seq<Item>) {
    forall i :: 0 <= i < |log| && log[i].Some? ==> Effective(None, Cluster(start, log[..i]), log[i].value)
  }

  function Without(all: set<NodeId>, self: Option<NodeId>): set<NodeId> {
    if self.Some? then all - {self.value} else all
  }

  // ------------------------------------------------ rollback: exactly when it works

  function First(items: seq<Item>, n: NodeId): Option<Change> {
    if items == [] then None
    else if items[0].Some? && !items[0].value.Unknown? && items[0].value.node == n then items[0]
    else First(items[1..], n)
  }

  lemma {:induction false} FirstLast(items: seq<Item>, n: NodeId)
    requires items != []
    ensures First(items, n) ==
              if First(items[..|items| - 1], n).Some? then First(items[..|items| - 1], n) else First([items[|items| - 1]], n)
  {
    if |items| > 1 {
      FirstLast(items[1..], n);
      assert items[1..][..|items| - 2] == items[..|items| - 1][1..];
      assert items[1..][|items| - 2] == items[|items| - 1];
    }
  }

  /** After a rollback an address is known if its first change removed it, whatever
      came later. */
  lemma {:induction false} UndoneBit(self: Option<NodeId>, others: set<NodeId>, items: seq<Item>, n: NodeId)
    requires Some(n) != self
    ensures n in Undone(self, others, items) <==>
              match First(items, n) case Some(c) => c.Remove? case None => n in others
    decreases |items|
  {
    if items != [] {
      var last := |items| - 1;
      UndoneBit(self, StepBack(self, others, items[last]), items[..last], n);
      FirstLast(items, n);
    }
  }

  lemma {:induction false} AppliedBit(self: Option<NodeId>, others: set<NodeId>, items: seq<Item>, n: NodeId)
    requires First(items, n).None?
    ensures n in Applied(self, others, items) <==> n in others
    decreases |items|
  {
    if items != [] {
      FirstLast(items, n);
      AppliedBit(self, others, items[..|items| - 1], n);
    }
  }

  lemma {:induction false} SelfIsLeftOut(self: Option<NodeId>, others: set<NodeId>, items: seq<Item>)
    requires self.Some? && self.value !in others
    ensures self.value !in Applied(self, others, items) && self.value !in Undone(self, others, items)
    decreases |items|
  {
    if items != [] {
      SelfIsLeftOut(self, others, items[..|items| - 1]);
      SelfIsLeftOut(self, StepBack(self, others, items[|items| - 1]), items[..|items| - 1]);
    }
  }

  /** Rolling back what was just applied restores the known addresses exactly when,
      for every address, the first of the entries about it had an effect. */
  lemma RollbackRestoresIff(self: Option<NodeId>, others: set<NodeId>, items: seq<Item>)
    requires self.Some? ==> self.value !in others
    ensures Undone(self, Applied(self, others, items), items) == others <==>
              forall n: NodeId :: Some(n) != self && First(items, n).Some? ==> Effective(self, others, First(items, n).value)
  {
    var back := Undone(self, Applied(self, others, items), items);
    forall n: NodeId | Some(n) != self
      ensures (n in back <==> n in others) <==> (First(items, n).Some? ==> Effective(self, others, First(items, n).value))
    {
      UndoneBit(self, Applied(self, others, items), items, n);
      FirstNames(items, n);
      if First(items, n).None? {
        AppliedBit(self, others, items, n);
      }
    }
    if self.Some? {
      SelfIsLeftOut(self, others, items);
      SelfIsLeftOut(self, Applied(self, others, items), items);
    }
    if forall n: NodeId :: Some(n) != self && First(items, n).Some? ==> Effective(self, others, First(items, n).value) {
      forall n: NodeId ensures n in back <==> n in others {
        if Some(n) != self {
          assert First(items, n).Some? ==> Effective(self, others, First(items, n).value);
        }
      }
      assert back == others;
    }
    if back == others {
      forall n: NodeId | Some(n) != self && First(items, n).Some? ensures Effective(self, others, First(items, n).value) {
        assert n in back <==> n in others;
      }
    }
  }

  lemma {:induction false} FirstNames(items: seq<Item>, n: NodeId)
    ensures First(items, n).Some? ==> !First(items, n).value.Unknown? && First(items, n).value.node == n
  {
    if items != [] {
      FirstNames(items[1..], n);
    }
  }

  /** An entry that adds a known address takes it away when it is rolled back. */
  lemma RollbackForgets()
    ensures Undone(Some(1), Applied(Some(1), {2}, [Some(Add(2))]), [Some(Add(2))]) == {}
  {
    var items: seq<Item> := [Some(Add(2))];
    assert items[..0] == [];
    assert Applied(Some(1), {2}, items) == {2};
    assert Undone(Some(1), {2}, items) == Undone(Some(1), {}, items[..0]);
  }

  // -------------------------------------------------- the known addresses and the log

  /** What the node knows is the cluster of its log, without itself. */
  ghost predicate InStep(self: Option<NodeId>, start: set<NodeId>, others: set<NodeId>, log: seq<Item>) {
    AllEffective(start, log) && others == Without(Cluster(start, log), self)
  }

  lemma PrefixEffective(start: set<NodeId>, log: seq<Item>, n: nat)
    requires AllEffective(start, log) && n <= |log|
    ensures AllEffective(start, log[..n])
  {
    forall i | 0 <= i < n && log[i].Some? ensures Effective(None, Cluster(start, log[..n][..i]), log[i].value) {
      assert log[..n][..i] == log[..i];
    }
  }

  lemma {:induction false} ApplyKeepsStep(self: Option<NodeId>, start: set<NodeId>, others: set<NodeId>, log: seq<Item>, items: seq<Item>)
    requires InStep(self, start, others, log) && AllEffective(start, log + items)
    ensures InStep(self, start, Applied(self, others, items), log + items)
    decreases |items|
  {
    if items == [] {
      assert log + items == log;
    } else {
      var last := |items| - 1;
      assert (log + items)[..|log| + last] == log + items[..last];
      PrefixEffective(start, log + items, |log| + last);
      ApplyKeepsStep(self, start, others, log, items[..last]);
      assert (log + items)[|log| + last] == items[last];
    }
  }

  lemma {:induction false} UndoKeepsStep(self: Option<NodeId>, start: set<NodeId>, others: set<NodeId>, log: seq<Item>, n: nat)
    requires InStep(self, start, others, log) && n <= |log|
    ensures InStep(self, start, Undone(self, others, log[n..]), log[..n])
    decreases |log|
  {
    if n == |log| {
      assert log[..n] == log;
    } else {
      var last := |log| - 1;
      assert log[n..][..last - n] == log[..last][n..] && log[n..][last - n] == log[last];
      assert log[..last][..n] == log[..n];
      PrefixEffective(start, log, last);
      UndoOne(self, start, others, log);
      UndoKeepsStep(self, start, StepBack(self, others, log[last]), log[..last], n);
    }
  }

  lemma UndoOne(self: Option<NodeId>, start: set<NodeId>, others: set<NodeId>, log: seq<Item>)
    requires InStep(self, start, others, log) && log != []
    ensures StepBack(self, others, log[|log| - 1]) == Without(Cluster(start, log[..|log| - 1]), self)
  {
    var last := |log| - 1;
    assert log[last].Some? ==> Effective(None, Cluster(start, log[..last]), log[last].value);
  }

  // ---------------------------------------------------------------------- runs

  datatype State = State(others: set<NodeId>, log: seq<Item>)

  /** The leader logs an entry, which it refuses when the change has no effect; or
      a follower keeps `keep` entries and appends new ones. */
  datatype Op = Lead(item: Item, allowed: bool) | Follow(keep: nat, items: seq<Item>)

  predicate Logs(self: Option<NodeId>, s: State, op: Op) {
    op.Lead? && (op.item.None? || (op.allowed && Effective(self, s.others, op.item.value)))
  }

  function After(self: Option<NodeId>, s: State, op: Op): State {
    match op
    case Lead(item, _) => if Logs(self, s, op) then State(Step(self, s.others, item), s.log + [item]) else s
    case Follow(keep, items) =>
      if keep <= |s.log| then State(Applied(self, Undone(self, s.others, s.log[keep..]), items), s.log[..keep] + items) else s
  }

  function AfterAll(self: Option<NodeId>, s: State, ops: seq<Op>): State
    decreases |ops|
  {
    if ops == [] then s else After(self, AfterAll(self, s, ops[..|ops| - 1]), ops[|ops| - 1])
  }

  /** Whatever a follower appended had an effect where it was logged. */
  ghost predicate FollowsEffective(self: Option<NodeId>, start: set<NodeId>, s: State, ops: seq<Op>) {
    forall i :: 0 <= i < |ops| && ops[i].Follow? ==> AllEffective(start, AfterAll(self, s, ops[..i + 1]).log)
  }

  /** A leader only logs changes that have an effect in its cluster. */
  lemma LeadKeepsStep(self: Option<NodeId>, start: set<NodeId>, s: State, op: Op)
    requires InStep(self, start, s.others, s.log) && Logs(self, s, op)
    ensures InStep(self, start, After(self, s, op).others, After(self, s, op).log)
  {
    var log := s.log + [op.item];
    forall i | 0 <= i < |log| && log[i].Some? ensures Effective(None, Cluster(start, log[..i]), log[i].value) {
      if i < |s.log| {
        assert log[..i] == s.log[..i];
      } else {
        assert log[..i] == s.log;
      }
    }
    var one := [op.item];
    assert one[..0] == [];
    ApplyKeepsStep(self, start, s.others, s.log, one);
  }

  /** Along any run of leader appends and follower appends, as long as the logs hold
      only changes that had an effect, the node knows exactly the cluster of its
      current log, without itself. */
  lemma {:induction false} RunKeepsStep(self: Option<NodeId>, start: set<NodeId>, s: State, ops: seq<Op>)
    requires InStep(self, start, s.others, s.log) && FollowsEffective(self, start, s, ops)
    ensures var t := AfterAll(self, s, ops); InStep(self, start, t.others, t.log)
    decreases |ops|
  {
    if ops != [] {
      var last := |ops| - 1;
      forall i | 0 <= i < last && ops[..last][i].Follow? ensures AllEffective(start, AfterAll(self, s, ops[..last][..i + 1]).log) {
        assert ops[..last][..i + 1] == ops[..i + 1];
      }
      RunKeepsStep(self, start, s, ops[..last]);
      var t := AfterAll(self, s, ops[..last]);
      if Logs(self, t, ops[last]) {
        LeadKeepsStep(self, start, t, ops[last]);
      } else if ops[last].Follow? && ops[last].keep <= |t.log| {
        assert ops[..last + 1] == ops;
        UndoKeepsStep(self, start, t.others, t.log, ops[last].keep);
        ApplyKeepsStep(self, start, Undone(self, t.others, t.log[ops[last].keep..]), t.log[..ops[last].keep], ops[last].items);
      }
    }
  }

  // ----------------------------------------------------------------- the fields

  ghost function AddrSet(nodes: seq<NodeId>): set<NodeId> {
    set n | n in nodes
  }

  lemma TakenOut(nodes: seq<NodeId>, i: nat)
    requires i < |nodes| && Distinct(nodes)
    ensures var rest := nodes[..i] + nodes[i + 1..];
            Distinct(rest) && AddrSet(rest) == AddrSet(nodes) - {nodes[i]}
  {
    var rest := nodes[..i] + nodes[i + 1..];
    assert forall k :: 0 <= k < |rest| ==> rest[k] == if k < i then nodes[k] else nodes[k + 1];
    forall n | n in AddrSet(nodes) - {nodes[i]} ensures n in rest {
      var k :| 0 <= k < |nodes| && nodes[k] == n;
      assert rest[if k < i then k else k - 1] == n;
    }
  }

  /** Whoever has indexes now has kept them, or starts at `start` with nothing
      matched. */
  ghost predicate Tracked(next: map<NodeId, nat>, matched: map<NodeId, int>, next': map<NodeId, nat>, matched': map<NodeId, int>, start: nat)
    requires next.Keys == matched.Keys && next'.Keys == matched'.Keys
  {
    forall n :: n in next' ==>
      if n in next then next'[n] == next[n] && matched'[n] == matched[n] else next'[n] == start && matched'[n] == 0
  }

  /** The same after several changes, where a node may leave and come back: whoever has
      other indexes than before starts at one of these. */
  ghost predicate Restarted(next: map<NodeId, nat>, matched: map<NodeId, int>, next': map<NodeId, nat>, matched': map<NodeId, int>, starts: set<nat>)
    requires next.Keys == matched.Keys && next'.Keys == matched'.Keys
  {
    forall n :: n in next' ==>
      || (n in next && next'[n] == next[n] && matched'[n] == matched[n])
      || (next'[n] in starts && matched'[n] == 0)
  }

  class Members {
    const self: Option<NodeId>
    var otherNodesAddrs: seq<NodeId>
    var nodes: seq<NodeId>
    var log: seq<Item>
    var nextIndex: map<NodeId, nat>
    var matchIndex: map<NodeId, int>
    var lastApplied: nat
    var noopIdx: nat

    ghost function Others(): set<NodeId>
      reads this
    {
      AddrSet(otherNodesAddrs)
    }

    ghost function View(): State
      reads this
    {
      State(Others(), log)
    }

    /** Both lists name the same nodes, each once and never the node itself, and
        every one of them has its replication indexes. */
    ghost predicate Valid()
      reads this
    {
      && Distinct(otherNodesAddrs) && nodes == otherNodesAddrs
      && (self.Some? ==> self.value !in Others())
      && nextIndex.Keys == Others() && matchIndex.Keys == Others()
    }

    method DoChangeCluster(c: Change, reverse: bool) returns (done: bool)
      requires Valid()
      modifies this`otherNodesAddrs, this`nodes, this`nextIndex, this`matchIndex
      ensures Valid()
      ensures done <==> Effective(self, old(Others()), if reverse then Opposite(c) else c)
      ensures Others() == Changed(self, old(Others()), if reverse then Opposite(c) else c)
      ensures done <==> Others() != old(Others())
      ensures !c.Unknown? ==> Others() == if Some(c.node) == self then old(Others())
                                          else if c.Add? == !reverse then old(Others()) + {c.node} else old(Others()) - {c.node}
      ensures Tracked(old(nextIndex), old(matchIndex), nextIndex, matchIndex, |log| + 1)
    {
      if c.Unknown? {
        return false;
      }
      var adding := if c.Add? then !reverse else reverse;
      if adding {
        done := AddNode(c.node);
      } else {
        done := RemoveNode(c.node);
      }
    }

    method AddNode(n: NodeId) returns (done: bool)
      requires Valid()
      modifies this`otherNodesAddrs, this`nodes, this`nextIndex, this`matchIndex
      ensures Valid() && (done <==> Some(n) != self && n !in old(Others()))
      ensures Others() == if done then old(Others()) + {n} else old(Others())
      ensures nextIndex == if done then old(nextIndex)[n := |log| + 1] else old(nextIndex)
      ensures matchIndex == if done then old(matchIndex)[n := 0] else old(matchIndex)
    {
      if Some(n) == self || n in otherNodesAddrs {
        return false;
      }
      otherNodesAddrs := otherNodesAddrs + [n];
      nodes := nodes + [n];
      nextIndex := nextIndex[n := |log| + 1];
      matchIndex := matchIndex[n := 0];
      return true;
    }

    method RemoveNode(n: NodeId) returns (done: bool)
      requires Valid()
      modifies this`otherNodesAddrs, this`nodes, this`nextIndex, this`matchIndex
      ensures Valid() && (done <==> Some(n) != self && n in old(Others()))
      ensures Others() == if done then old(Others()) - {n} else old(Others())
      ensures nextIndex == if done then old(nextIndex) - {n} else old(nextIndex)
      ensures matchIndex == if done then old(matchIndex) - {n} else old(matchIndex)
    {
      if Some(n) == self || n !in otherNodesAddrs {
        return false;
      }
      var i := 0;
      while i < |nodes| && nodes[i] != n
        invariant i <= |nodes| && n !in nodes[..i]
      {
        i := i + 1;
      }
      assert nodes[..|nodes|] == nodes;
      WithoutFirstAt(nodes, i);
      TakenOut(nodes, i);
      nodes := nodes[..i] + nodes[i + 1..];
      otherNodesAddrs := WithoutFirst(otherNodesAddrs, n);
      nextIndex := nextIndex - {n};
      matchIndex := matchIndex - {n};
      return true;
    }

    /** The leader's side: a change is logged only if the no-op of its term was
        applied and the change has an effect. */
    method LeadItem(item: Item) returns (logged: bool)
      requires Valid()
      modifies this`otherNodesAddrs, this`nodes, this`nextIndex, this`matchIndex, this`log
      ensures Valid() && View() == After(self, old(View()), Lead(item, lastApplied >= noopIdx))
      ensures logged <==> item.None? || (lastApplied >= noopIdx && Others() != old(Others()))
      ensures log == if logged then old(log) + [item] else old(log)
      ensures Tracked(old(nextIndex), old(matchIndex), nextIndex, matchIndex, |old(log)| + 1)
    {
      logged := true;
      if item.Some? {
        if lastApplied < noopIdx {
          return false;
        }
        logged := DoChangeCluster(item.value, false);
        if !logged {
          return;
        }
      }
      log := log + [item];
    }

    /** The follower's side: undo the changes behind the first `keep` entries, the
        last one first, drop those entries, add the new ones and apply them. */
    method FollowItems(keep: nat, items: seq<Item>)
      requires Valid() && keep <= |log|
      modifies this`otherNodesAddrs, this`nodes, this`nextIndex, this`matchIndex, this`log
      ensures Valid() && View() == After(self, old(View()), Follow(keep, items)) && log == old(log)[..keep] + items
      ensures Restarted(old(nextIndex), old(matchIndex), nextIndex, matchIndex, {|old(log)| + 1, |log| + 1})
    {
      RollBack(log[keep..]);
      log := log[..keep] + items;
      ApplyAll(items);
    }

    method RollBack(items: seq<Item>)
      requires Valid()
      modifies this`otherNodesAddrs, this`nodes, this`nextIndex, this`matchIndex
      ensures Valid() && Others() == Undone(self, old(Others()), items)
      ensures Restarted(old(nextIndex), old(matchIndex), nextIndex, matchIndex, {|log| + 1})
    {
      var i := |items|;
      assert items[..i] == items;
      while i > 0
        invariant 0 <= i <= |items| && Valid()
        invariant Restarted(old(nextIndex), old(matchIndex), nextIndex, matchIndex, {|log| + 1})
        invariant Undone(self, Others(), items[..i]) == Undone(self, old(Others()), items)
      {
        i := i - 1;
        assert items[..i + 1][..i] == items[..i];
        if items[i].Some? {
          var done := DoChangeCluster(items[i].value, true);
        }
      }
    }

    method ApplyAll(items: seq<Item>)
      requires Valid()
      modifies this`otherNodesAddrs, this`nodes, this`nextIndex, this`matchIndex
      ensures Valid() && Others() == Applied(self, old(Others()), items)
      ensures Restarted(old(nextIndex), old(matchIndex), nextIndex, matchIndex, {|log| + 1})
    {
      var i := 0;
      while i < |items|
        invariant i <= |items| && Valid()
        invariant Restarted(old(nextIndex), old(matchIndex), nextIndex, matchIndex, {|log| + 1})
        invariant Others() == Applied(self, old(Others()), items[..i])
      {
        assert items[..i + 1][..i] == items[..i];
        if items[i].Some? {
          var done := DoChangeCluster(items[i].value, false);
        }
        i := i + 1;
      }
      assert items[..i] == items;
    }
  }
}
