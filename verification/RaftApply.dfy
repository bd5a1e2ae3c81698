/** Handing committed entries to the state machine. A command that asks for an
    unsupported code version raises and is skipped without being counted, while
    the loop goes on with the entries behind it; so a node applies consecutive
    indices exactly when no applied entry ever follows a skipped one. */
module RaftApply {
  import opened RaftTypes
  import opened RaftProtocol
  import opened RaftSystem
  import opened RaftElection
  import opened RaftLog

  /** No entry that can be applied comes behind one that cannot. */
  predicate SkipsOnlyAtEnd(es: seq<Entry>, selfVer: nat) {
    forall i, j :: 0 <= i < j < |es| && Supported(es[j].cmd, selfVer) ==> Supported(es[i].cmd, selfVer)
  }

  lemma {:induction false} ExecutedAll(es: seq<Entry>, selfVer: nat)
    ensures |Executed(es, selfVer)| == |es| <==> forall i :: 0 <= i < |es| ==> Supported(es[i].cmd, selfVer)
  {
    if es != [] {
      ExecutedAll(es[1..], selfVer);
      assert forall i :: 0 < i < |es| ==> es[i] == es[1..][i - 1];
    }
  }

  lemma {:induction false} ExecutedPrefix(es: seq<Entry>, selfVer: nat)
    ensures Executed(es, selfVer) <= es <==> SkipsOnlyAtEnd(es, selfVer)
  {
    if es != [] {
      var x, rest := Executed(es, selfVer), es[1..];
      ExecutedPrefix(rest, selfVer);
      assert forall i :: 0 < i < |es| ==> es[i] == rest[i - 1];
      if Supported(es[0].cmd, selfVer) {
        assert x == [es[0]] + Executed(rest, selfVer);
        SkipsTail(es, selfVer);
      } else if x == [] {
        forall j | 0 <= j < |es| ensures !Supported(es[j].cmd, selfVer) {
          assert es[j] in es;
        }
      } else {
        assert x[0] in x;
        var j :| 0 <= j < |es| && es[j] == x[0];
        assert 0 < j;
      }
    }
  }

  lemma SkipsTail(es: seq<Entry>, selfVer: nat)
    requires es != [] && Supported(es[0].cmd, selfVer)
    ensures SkipsOnlyAtEnd(es, selfVer) <==> SkipsOnlyAtEnd(es[1..], selfVer)
  {
    var rest := es[1..];
    if SkipsOnlyAtEnd(rest, selfVer) {
      forall i, j | 0 <= i < j < |es| && Supported(es[j].cmd, selfVer) ensures Supported(es[i].cmd, selfVer) {
        if i > 0 {
          assert rest[j - 1] == es[j] && rest[i - 1] == es[i];
        }
      }
    } else {
      var i, j :| 0 <= i < j < |rest| && Supported(rest[j].cmd, selfVer) && !Supported(rest[i].cmd, selfVer);
      assert es[j + 1] == rest[j] && es[i + 1] == rest[i];
    }
  }

  lemma UnappliedRange(r: Raft)
    requires WellFormedLog(r.log) && 1 <= r.lastApplied && r.commitIndex <= |r.log|
    ensures Unapplied(r) == if r.commitIndex > r.lastApplied then r.log[r.lastApplied..r.commitIndex] else []
  {
  }

  /** One pass leaves nothing behind exactly when it met no unsupported command;
      otherwise the next pass hands out the tail of the same entries again. */
  lemma PassIsComplete(r: Raft)
    requires WellFormedLog(r.log) && 1 <= r.lastApplied && r.commitIndex <= |r.log|
    ensures var es := Unapplied(r);
            && Unapplied(ApplyCommitted(r)) == es[|Executed(es, r.selfVer)|..]
            && (Unapplied(ApplyCommitted(r)) == [] <==>
                  forall i :: 0 <= i < |es| ==> Supported(es[i].cmd, r.selfVer))
  {
    UnappliedRange(r);
    UnappliedRange(ApplyCommitted(r));
    ExecutedAll(Unapplied(r), r.selfVer);
  }

  // ------------------------------------------------------------------ whole runs

  ghost predicate Counted(s: System, n: NodeId) {
    n in s.nodes && n in s.hist.applied && |s.hist.applied[n]| + 1 == s.nodes[n].lastApplied
  }

  /** The k-th applied entry is the one of index k + 2: no gap and no repeat. */
  ghost predicate Consecutive(applied: seq<Application>) {
    forall k :: 0 <= k < |applied| ==> applied[k].entry.idx == k + 2
  }

  lemma OtherStepsApplyNothing(s: System, step: Step, n: NodeId)
    requires Running(s) && Enabled(s, step) && n in s.nodes && step != Apply(n) && Running(Next(s, step)) && n in Next(s, step).nodes
    ensures Next(s, step).hist.applied[n] == s.hist.applied[n]
    ensures Next(s, step).nodes[n].lastApplied == s.nodes[n].lastApplied
  {
    match step
    case Deliver(p) => DeliveryAppliesNothing(s, p);
    case Timeout(m) => TimeoutAppliesNothing(s, m);
    case _ => LocalAppliesNothing(s, step, n);
  }

  lemma LocalAppliesNothing(s: System, step: Step, n: NodeId)
    requires Running(s) && Enabled(s, step) && n in s.nodes && step != Apply(n)
    requires !step.Deliver? && !step.Timeout?
    ensures n in Next(s, step).nodes && n in Next(s, step).hist.applied
    ensures Next(s, step).hist.applied[n] == s.hist.applied[n]
    ensures Next(s, step).nodes[n].lastApplied == s.nodes[n].lastApplied
  {
    match step
    case SendTo(m, peer, batch) => SendAppliesNothing(s, m, peer, batch);
    case AppendCommand(m, cmd) => AppendAppliesNothing(s, m, cmd);
    case _ =>
  }

  lemma AppendAppliesNothing(s: System, n: NodeId, cmd: Command)
    requires Running(s) && n in s.nodes
    ensures AfterAppend(s, n, cmd).hist.applied == s.hist.applied
    ensures AfterAppend(s, n, cmd).nodes[n].lastApplied == s.nodes[n].lastApplied
  {
  }

  lemma SendAppliesNothing(s: System, n: NodeId, peer: NodeId, batch: nat)
    requires Running(s) && n in s.nodes && peer in s.nodes[n].nextIndex
    ensures AfterSend(s, n, peer, batch).hist.applied == s.hist.applied
    ensures AfterSend(s, n, peer, batch).nodes[n].lastApplied == s.nodes[n].lastApplied
  {
  }

  lemma ReceiveAppliesNothing(r: Raft, src: NodeId, msg: Message, h: History)
    requires |r.log| > 0 && r.id in h.counted
    ensures Receive(r, src, msg).0.lastApplied == r.lastApplied && RecordReceive(h, r, src, msg).applied == h.applied
  {
    match msg
    case RequestVote(_, _, _) =>
    case ResponseVote(_) =>
    case AppendEntries(_, _, _, _) =>
    case EmptySnapshot(_, _) =>
    case NextNodeIdx(_, _, _) =>
  }

  lemma DeliveryAppliesNothing(s: System, p: Packet)
    requires Running(s) && p.dst in s.nodes
    ensures AfterDelivery(s, p).hist.applied == s.hist.applied
    ensures AfterDelivery(s, p).nodes[p.dst].lastApplied == s.nodes[p.dst].lastApplied
  {
    ReceiveAppliesNothing(s.nodes[p.dst], p.src, p.msg, s.hist);
  }

  lemma TimeoutAppliesNothing(s: System, n: NodeId)
    requires Running(s) && n in s.nodes
    ensures AfterTimeout(s, n).hist.applied == s.hist.applied
    ensures AfterTimeout(s, n).nodes[n].lastApplied == s.nodes[n].lastApplied
  {
  }

  /** The executed entries x come behind what was applied before. */
  ghost predicate Adds(before: seq<Application>, x: seq<Entry>, now: seq<Application>) {
    && |now| == |before| + |x| && (forall k :: 0 <= k < |before| ==> now[k] == before[k])
    && forall q :: 0 <= q < |x| ==> now[|before| + q].entry == x[q]
  }

  /** Adding the executed part of a pass over es. */
  lemma PassExtends(before: seq<Application>, es: seq<Entry>, selfVer: nat, now: seq<Application>)
    requires forall q :: 0 <= q < |es| ==> es[q].idx == |before| + q + 2
    requires Adds(before, Executed(es, selfVer), now)
    ensures Consecutive(now) <==> Consecutive(before) && SkipsOnlyAtEnd(es, selfVer)
  {
    var x := Executed(es, selfVer);
    ExecutedPrefix(es, selfVer);
    if Consecutive(now) {
      forall q | 0 <= q < |x| ensures x[q] == es[q] {
        assert now[|before| + q].entry.idx == |before| + q + 2;
        assert x[q] in x;
      }
      assert forall k :: 0 <= k < |before| ==> now[k].entry.idx == k + 2;
    }
    if Consecutive(before) && x <= es {
      forall k | 0 <= k < |now| ensures now[k].entry.idx == k + 2 {
        if k >= |before| {
          assert now[|before| + (k - |before|)].entry == x[k - |before|] == es[k - |before|];
        }
      }
    }
  }

  /** What one apply step adds to the applied entries. */
  lemma ApplyExtends(s: System, n: NodeId)
    requires Running(s) && n in s.nodes && NodeLogOk(s.nodes[n], s.hist) && Counted(s, n)
    ensures var r := s.nodes[n];
            var t := AfterApply(s, n);
            && n in t.hist.applied && |t.hist.applied[n]| + 1 == t.nodes[n].lastApplied
            && (Consecutive(t.hist.applied[n]) <==>
                  Consecutive(s.hist.applied[n]) && SkipsOnlyAtEnd(Unapplied(r), r.selfVer))
  {
    UnappliedFrom(s.nodes[n], s.hist);
    AppliedNow(s, n);
    ExtendsBy(s.nodes[n], s.hist.applied[n], AfterApply(s, n).hist.applied[n]);
  }

  lemma ExtendsBy(r: Raft, before: seq<Application>, now: seq<Application>)
    requires |r.log| > 0 && r.lastApplied == |before| + 1
    requires forall q :: 0 <= q < |Unapplied(r)| ==> Unapplied(r)[q].idx == r.lastApplied + q + 1
    requires Adds(before, Executed(Unapplied(r), r.selfVer), now)
    ensures Consecutive(now) <==> Consecutive(before) && SkipsOnlyAtEnd(Unapplied(r), r.selfVer)
  {
    PassExtends(before, Unapplied(r), r.selfVer, now);
  }

  lemma UnappliedFrom(r: Raft, h: History)
    requires NodeLogOk(r, h) && r.lastApplied >= 1
    ensures forall q :: 0 <= q < |Unapplied(r)| ==> Unapplied(r)[q].idx == r.lastApplied + q + 1
  {
    UnappliedRange(r);
  }

  lemma AppliedNow(s: System, n: NodeId)
    requires Running(s) && n in s.nodes
    ensures var x := Executed(Unapplied(s.nodes[n]), s.nodes[n].selfVer);
            && AfterApply(s, n).nodes[n].lastApplied == s.nodes[n].lastApplied + |x|
            && Adds(s.hist.applied[n], x, AfterApply(s, n).hist.applied[n])
  {
  }

  /** Whatever node n applied between s and t, it skipped nothing in between. */
  ghost predicate PassOk(s: System, t: System, n: NodeId) {
    && Running(s) && Running(t) && n in s.nodes && n in t.nodes
    && (t.hist.applied[n] != s.hist.applied[n] ==> SkipsOnlyAtEnd(Unapplied(s.nodes[n]), s.nodes[n].selfVer))
  }

  lemma SameMembers(s: System, step: Step)
    requires Running(s) && Enabled(s, step)
    ensures Next(s, step).nodes.Keys == s.nodes.Keys
  {
  }

  lemma SameMembersAt(s: System, t: System)
    requires Steps(s, t)
    ensures t.nodes.Keys == s.nodes.Keys
  {
    var step :| Enabled(s, step) && t == Next(s, step);
    SameMembers(s, step);
  }

  lemma MembersAt(states: seq<System>, i: nat)
    requires Run(states) && 0 < i < |states|
    ensures states[i].nodes.Keys == states[i - 1].nodes.Keys
  {
    RunSteps(states, i);
    SameMembersAt(states[i - 1], states[i]);
  }

  /** One step of a run, whatever it is. */
  lemma StepExtends(s: System, t: System, n: NodeId)
    requires Shape(s) && LogInv(s) && Steps(s, t) && Shape(t) && n in s.nodes && n in t.nodes && Counted(s, n)
    ensures Counted(t, n)
    ensures Consecutive(t.hist.applied[n]) <==> Consecutive(s.hist.applied[n]) && PassOk(s, t, n)
  {
    var step :| Enabled(s, step) && t == Next(s, step);
    if step == Apply(n) {
      assert NodeLogOk(s.nodes[n], s.hist);
      ApplyExtends(s, n);
      UnchangedPass(s, n);
    } else {
      OtherStepsApplyNothing(s, step, n);
    }
  }

  /** A pass that executed nothing skipped nothing in between. */
  lemma UnchangedPass(s: System, n: NodeId)
    requires Running(s) && n in s.nodes
    ensures AfterApply(s, n).hist.applied[n] == s.hist.applied[n] ==>
              SkipsOnlyAtEnd(Unapplied(s.nodes[n]), s.nodes[n].selfVer)
  {
    var r := s.nodes[n];
    var x := Executed(Unapplied(r), r.selfVer);
    ExecutedPrefix(Unapplied(r), r.selfVer);
    assert |AfterApply(s, n).hist.applied[n]| == |s.hist.applied[n]| + |x|;
  }

  /** A node applies the indices 2, 3, 4, ... without gap or repeat if and only
      if none of its passes applied an entry behind a skipped one. */
  lemma AppliesConsecutively(states: seq<System>, i: nat, n: NodeId)
    requires Run(states) && i < |states| && n in states[0].nodes
    ensures InOrder(states[i], n) <==> forall j: nat :: j < i ==> PassAt(states, j, n)
  {
    if InOrder(states[i], n) {
      forall j: nat | j < i ensures PassAt(states, j, n) {
        OrderNeedsPass(states, i, n, j);
      }
    }
    if forall j: nat :: j < i ==> PassAt(states, j, n) {
      PassesGiveOrder(states, i, n);
    }
  }

  ghost predicate InOrder(s: System, n: NodeId) {
    n in s.hist.applied && Consecutive(s.hist.applied[n])
  }

  lemma {:induction false} PassesGiveOrder(states: seq<System>, i: nat, n: NodeId)
    requires Run(states) && i < |states| && n in states[0].nodes
    requires forall j: nat :: j < i ==> PassAt(states, j, n)
    ensures InOrder(states[i], n)
  {
    if i == 0 {
      FirstState(states, n);
    } else {
      PassesGiveOrder(states, i - 1, n);
      AlwaysCounted(states, i - 1, n);
      assert PassAt(states, i - 1, n);
      RunPassStep(states, i, n);
    }
  }

  lemma {:induction false} OrderNeedsPass(states: seq<System>, i: nat, n: NodeId, j: nat)
    requires Run(states) && j < i < |states| && n in states[0].nodes && InOrder(states[i], n)
    ensures PassAt(states, j, n)
  {
    AlwaysCounted(states, i - 1, n);
    RunPassStep(states, i, n);
    if j < i - 1 {
      OrderNeedsPass(states, i - 1, n, j);
    }
  }

  lemma {:induction false} AlwaysCounted(states: seq<System>, i: nat, n: NodeId)
    requires Run(states) && i < |states| && n in states[0].nodes
    ensures Counted(states[i], n)
  {
    if i == 0 {
      FirstState(states, n);
    } else {
      AlwaysCounted(states, i - 1, n);
      RunPassStep(states, i, n);
    }
  }

  lemma RunPassStep(states: seq<System>, i: nat, n: NodeId)
    requires Run(states) && 0 < i < |states|
    requires Counted(states[i - 1], n)
    ensures Counted(states[i], n)
    ensures InOrder(states[i], n) <==> InOrder(states[i - 1], n) && PassAt(states, i - 1, n)
  {
    RunKeepsLogs(states, i - 1);
    PassStep(states, i, n);
  }

  ghost predicate PassAt(states: seq<System>, j: nat, n: NodeId) {
    j + 1 < |states| && PassOk(states[j], states[j + 1], n)
  }

  lemma FirstState(states: seq<System>, n: NodeId)
    requires Run(states) && n in states[0].nodes
    ensures Counted(states[0], n) && InOrder(states[0], n)
  {
    ElectionInvInit(states[0]);
    assert states[0].hist.applied[n] == [];
    InitialApplied(states[0], n);
  }

  lemma InitialApplied(s: System, n: NodeId)
    requires Init(s) && n in s.nodes
    ensures s.nodes[n].lastApplied == 1
  {
    assert StartsFresh(s, n);
  }

  lemma PassStep(states: seq<System>, i: nat, n: NodeId)
    requires Run(states) && 0 < i < |states|
    requires ElectionInv(states[i - 1]) && LogInv(states[i - 1]) && n in states[i - 1].nodes && Counted(states[i - 1], n)
    ensures Shape(states[i]) && n in states[i].nodes && Counted(states[i], n)
    ensures Consecutive(states[i].hist.applied[n]) <==>
              Consecutive(states[i - 1].hist.applied[n]) && PassOk(states[i - 1], states[i], n)
  {
    ElectionInvAt(states, i);
    MembersAt(states, i);
    RunSteps(states, i);
    StepExtends(states[i - 1], states[i], n);
  }
}
