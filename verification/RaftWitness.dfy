/** A run in which a node applies an entry twice: the leader of a cluster of two
    logs a command that asks for a code version it does not have, and a command
    behind it. */
module RaftWitness {
  import opened Options
  import opened RaftTypes
  import opened RaftProtocol
  import opened RaftSystem
  import opened RaftElection
  import opened RaftApply
  import opened RaftPair

  const BAD := Entry(Version(5), 3, 1)
  const PUT := Entry(Regular("put"), 4, 1)
  const FULL_LOG := [FIRST_ENTRY, E2, BAD, PUT]

  const SEND := Packet(0, 1, AppendEntries(1, 1, Some(Prev(1, 0)), [E2, BAD, PUT]))
  const BEAT := Packet(0, 1, AppendEntries(1, 1, Some(Prev(4, 1)), []))
  const ACK := Packet(1, 0, NextNodeIdx(5, false, true))

  // --------------------------------------------------------- what the handlers do

  lemma Sends(a: Raft)
    requires Leads(a, FULL_LOG, 1, 1, 2, 0)
    ensures Leads(SendAppend(a, 1, 3).0, FULL_LOG, 1, 1, 5, 0) && SendAppend(a, 1, 3).1 == SEND
  {
    assert EntriesFrom(FULL_LOG, 2) == [E2, BAD, PUT] && EntriesFrom(FULL_LOG, 1) == FULL_LOG;
    assert Take([E2, BAD, PUT], 3) == [E2, BAD, PUT] && PrevOf(FULL_LOG, 2) == Some(Prev(1, 0));
  }

  lemma Takes(b: Raft)
    requires Follows(b, None, [FIRST_ENTRY], 1, 1)
    ensures Follows(Receive(b, 0, SEND.msg).0, Some(0), FULL_LOG, 1, 1)
  {
    assert [FIRST_ENTRY][..1] + [E2, BAD, PUT] == FULL_LOG;
  }

  lemma Beats(a: Raft)
    requires Leads(a, FULL_LOG, 1, 1, 5, 0)
    ensures SendAppend(a, 1, 1) == (a, BEAT) && Leads(Receive(a, 1, ACK.msg).0, FULL_LOG, 1, 1, 5, 4)
  {
    assert EntriesFrom(FULL_LOG, 5) == [] && EntriesFrom(FULL_LOG, 4) == [PUT];
  }

  lemma Acknowledges(b: Raft)
    requires Follows(b, Some(0), FULL_LOG, 1, 1)
    ensures Receive(b, 0, BEAT.msg).1 == multiset{ACK}
  {
    assert EntriesFrom(FULL_LOG, 4) == [PUT];
    assert FULL_LOG[..4] + [] == FULL_LOG;
  }

  lemma Commits(a: Raft)
    requires Leads(a, FULL_LOG, 1, 1, 5, 4)
    ensures CommitsTo(a, 4)
  {
    forall i | 1 < i <= 4 ensures Majority(a, |Ackers(a, i)| + 1) {
      assert Ackers(a, i) == {1};
    }
  }

  lemma FirstPass(a: Raft)
    requires Leads(a, FULL_LOG, 4, 1, 5, 4)
    ensures Executed(Unapplied(a), 0) == [E2, PUT]
  {
    assert Unapplied(a) == [E2, BAD, PUT];
    assert [E2, BAD, PUT][1..] == [BAD, PUT] && [BAD, PUT][1..] == [PUT];
    assert Executed([PUT], 0) == [PUT];
    assert Executed([BAD, PUT], 0) == [PUT];
    assert Executed([E2, BAD, PUT], 0) == [E2] + [PUT];
  }

  lemma SecondPass(a: Raft)
    requires Leads(a, FULL_LOG, 4, 3, 5, 4)
    ensures Executed(Unapplied(a), 0) == [PUT]
  {
    assert Unapplied(a) == [PUT];
  }

  // ------------------------------------------------------------------------ the run

  /** The two nodes, the entries node 0 applied, and packets under way. */
  datatype Scene = Scene(a: Raft, b: Raft, net: multiset<Packet>, applied: seq<Entry>)

  ghost predicate Shows(s: System, t: Scene) {
    && Running(s) && 0 in s.nodes && 1 in s.nodes
    && s.nodes[0] == t.a && s.nodes[1] == t.b && t.net <= s.net
    && |s.hist.applied[0]| == |t.applied| && forall k :: 0 <= k < |t.applied| ==> s.hist.applied[0][k].entry == t.applied[k]
  }

  ghost predicate At(states: seq<System>, t: Scene) {
    Run(states) && Shows(states[|states| - 1], t)
  }

  lemma LastRunning(states: seq<System>)
    requires Run(states)
    ensures Running(states[|states| - 1])
  {
    RunKeeps(states, |states| - 1);
  }

  lemma Extend(states: seq<System>, step: Step) returns (more: seq<System>)
    requires Run(states) && Running(states[|states| - 1]) && Enabled(states[|states| - 1], step)
    ensures Run(more) && more == states + [Next(states[|states| - 1], step)]
  {
    more := states + [Next(states[|states| - 1], step)];
    forall i | 0 < i < |more| ensures StepAt(more, i) {
      if i < |states| {
        assert StepAt(states, i);
      } else {
        assert Steps(states[|states| - 1], more[i]);
      }
    }
  }

  lemma Moved(states: seq<System>, step: Step, t: Scene) returns (more: seq<System>)
    requires Run(states) && Running(states[|states| - 1]) && Enabled(states[|states| - 1], step)
    requires Running(Next(states[|states| - 1], step)) ==> Shows(Next(states[|states| - 1], step), t)
    ensures At(more, t)
  {
    more := Extend(states, step);
    LastRunning(more);
  }

  lemma Begins() returns (states: seq<System>)
    ensures At(states, Scene(InitialRaft(0, {1}, 0), InitialRaft(1, {0}, 0), multiset{}, []))
  {
    var nodes := map[0 := InitialRaft(0, {1}, 0), 1 := InitialRaft(1, {0}, 0)];
    var s := System(nodes, multiset{},
                    History(map[], map[], map n | n in nodes :: {}, {}, map[0 := [FIRST_ENTRY]],
                            map n | n in nodes :: 0, map n | n in nodes :: []));
    assert StartsFresh(s, 0) && StartsFresh(s, 1);
    states := [s];
    LastRunning(states);
  }

  function TimedOut(t: Scene): Scene
    requires |t.a.log| > 0
  {
    t.(a := StartElection(t.a).0, net := t.net + StartElection(t.a).1)
  }

  lemma Time(states: seq<System>, t: Scene) returns (more: seq<System>)
    requires At(states, t) && t.a.role != Leader && |t.a.log| > 0
    ensures At(more, TimedOut(t))
  {
    more := Moved(states, Timeout(0), TimedOut(t));
  }

  function LeftTakes(t: Scene, p: Packet): Scene
    requires |t.a.log| > 0
  {
    t.(a := Receive(t.a, p.src, p.msg).0, net := t.net - multiset{p} + Receive(t.a, p.src, p.msg).1)
  }

  lemma Left(states: seq<System>, t: Scene, p: Packet) returns (more: seq<System>)
    requires At(states, t) && p in t.net && p.dst == 0 && |t.a.log| > 0
    ensures At(more, LeftTakes(t, p))
  {
    DeliveryAppliesNothing(states[|states| - 1], p);
    more := Moved(states, Deliver(p), LeftTakes(t, p));
  }

  function RightTakes(t: Scene, p: Packet): Scene
    requires |t.b.log| > 0
  {
    t.(b := Receive(t.b, p.src, p.msg).0, net := t.net - multiset{p} + Receive(t.b, p.src, p.msg).1)
  }

  lemma Right(states: seq<System>, t: Scene, p: Packet) returns (more: seq<System>)
    requires At(states, t) && p in t.net && p.dst == 1 && |t.b.log| > 0
    ensures At(more, RightTakes(t, p))
  {
    DeliveryAppliesNothing(states[|states| - 1], p);
    more := Moved(states, Deliver(p), RightTakes(t, p));
  }

  lemma Append(states: seq<System>, t: Scene, cmd: Command) returns (more: seq<System>)
    requires At(states, t) && t.a.role == Leader && |t.a.log| > 0
    ensures At(more, t.(a := LeaderAppend(t.a, cmd)))
  {
    more := Moved(states, AppendCommand(0, cmd), t.(a := LeaderAppend(t.a, cmd)));
  }

  function Sent(t: Scene, batch: nat): Scene
    requires |t.a.log| > 0 && 1 in t.a.nextIndex
  {
    t.(a := SendAppend(t.a, 1, batch).0, net := t.net + multiset{SendAppend(t.a, 1, batch).1})
  }

  lemma Ship(states: seq<System>, t: Scene, batch: nat) returns (more: seq<System>)
    requires At(states, t) && t.a.role == Leader && |t.a.log| > 0 && 1 in t.a.peers && 1 in t.a.nextIndex && batch > 0
    ensures At(more, Sent(t, batch))
  {
    more := Moved(states, SendTo(0, 1, batch), Sent(t, batch));
  }

  lemma Commit(states: seq<System>, t: Scene, index: nat) returns (more: seq<System>)
    requires At(states, t) && t.a.role == Leader && |t.a.log| > 0 && CommitsTo(t.a, index)
    ensures At(more, t.(a := t.a.(commitIndex := index)))
  {
    more := Moved(states, AdvanceCommit(0, index), t.(a := t.a.(commitIndex := index)));
  }

  function Passed(t: Scene): Scene
    requires |t.a.log| > 0
  {
    t.(a := ApplyCommitted(t.a), applied := t.applied + Executed(Unapplied(t.a), t.a.selfVer))
  }

  lemma PassShows(s: System, t: Scene)
    requires Shows(s, t) && |t.a.log| > 0 && Running(AfterApply(s, 0))
    ensures Shows(AfterApply(s, 0), Passed(t))
  {
    AppliedNow(s, 0);
    var x := Executed(Unapplied(t.a), t.a.selfVer);
    AddsEntries(s.hist.applied[0], x, AfterApply(s, 0).hist.applied[0], t.applied);
  }

  lemma AddsEntries(before: seq<Application>, x: seq<Entry>, now: seq<Application>, entries: seq<Entry>)
    requires Adds(before, x, now) && |before| == |entries|
    requires forall k :: 0 <= k < |entries| ==> before[k].entry == entries[k]
    ensures |now| == |entries + x| && forall k :: 0 <= k < |entries + x| ==> now[k].entry == (entries + x)[k]
  {
    forall k | 0 <= k < |entries + x| ensures now[k].entry == (entries + x)[k] {
      if k >= |before| {
        assert now[|before| + (k - |before|)].entry == x[k - |before|];
      }
    }
  }

  lemma Pass(states: seq<System>, t: Scene) returns (more: seq<System>)
    requires At(states, t) && |t.a.log| > 0
    ensures At(more, Passed(t))
  {
    if Running(AfterApply(states[|states| - 1], 0)) {
      PassShows(states[|states| - 1], t);
    }
    more := Moved(states, Apply(0), Passed(t));
  }

  lemma Elects() returns (states: seq<System>, t: Scene)
    ensures At(states, t) && t.applied == []
    ensures Leads(t.a, LOG2, 1, 1, 2, 0) && Follows(t.b, None, [FIRST_ENTRY], 1, 1)
  {
    states := Begins();
    t := Scene(InitialRaft(0, {1}, 0), InitialRaft(1, {0}, 0), multiset{}, []);
    Asks();
    Votes();
    Wins();
    states := Time(states, t);
    t := TimedOut(t);
    states := Right(states, t, ASK);
    t := RightTakes(t, ASK);
    states := Left(states, t, VOTE);
    t := LeftTakes(t, VOTE);
  }

  lemma Logs() returns (states: seq<System>, t: Scene)
    ensures At(states, t) && t.applied == []
    ensures Leads(t.a, FULL_LOG, 1, 1, 2, 0) && Follows(t.b, None, [FIRST_ENTRY], 1, 1)
  {
    states, t := Elects();
    assert LOG2 + [BAD] + [PUT] == FULL_LOG;
    states := Append(states, t, Version(5));
    t := t.(a := LeaderAppend(t.a, Version(5)));
    states := Append(states, t, Regular("put"));
    t := t.(a := LeaderAppend(t.a, Regular("put")));
  }

  /** Node 1 takes the entries and acknowledges them, and node 0 commits. */
  lemma Replicates() returns (states: seq<System>, t: Scene)
    ensures At(states, t) && t.applied == [] && Leads(t.a, FULL_LOG, 4, 1, 5, 4)
  {
    states, t := Logs();
    Sends(t.a);
    Takes(t.b);
    states := Ship(states, t, 3);
    t := Sent(t, 3);
    states := Right(states, t, SEND);
    t := RightTakes(t, SEND);
    Beats(t.a);
    Acknowledges(t.b);
    states := Ship(states, t, 1);
    t := Sent(t, 1);
    states := Right(states, t, BEAT);
    t := RightTakes(t, BEAT);
    states := Left(states, t, ACK);
    t := LeftTakes(t, ACK);
    Commits(t.a);
    states := Commit(states, t, 4);
    t := t.(a := t.a.(commitIndex := 4));
  }

  lemma Applies() returns (states: seq<System>, t: Scene)
    ensures At(states, t) && t.applied == [E2, PUT, PUT]
  {
    states, t := Replicates();
    FirstPass(t.a);
    states := Pass(states, t);
    t := Passed(t);
    SecondPass(t.a);
    states := Pass(states, t);
    t := Passed(t);
  }

  /** The command behind the unsupported one is applied in two passes: the
      applied indices are 2, 4, 4. */
  lemma AppliesTwice() returns (states: seq<System>)
    ensures Run(states) && var s := states[|states| - 1];
            && 0 in s.hist.applied && |s.hist.applied[0]| == 3 && !InOrder(s, 0)
            && s.hist.applied[0][1].entry == PUT && s.hist.applied[0][2].entry == PUT
  {
    var t: Scene;
    states, t := Applies();
    assert states[|states| - 1].hist.applied[0][1].entry.idx == 4;
  }
}
