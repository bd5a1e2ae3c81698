/** Building runs move by move: what the nodes hold, and packets under way. */
module RaftScenes {
  import opened RaftTypes
  import opened RaftProtocol
  import opened RaftSystem
  import opened RaftElection

  datatype Scene = Scene(nodes: map<NodeId, Raft>, net: multiset<Packet>)

  ghost predicate Shows(s: System, t: Scene) {
    Running(s) && s.nodes == t.nodes && t.net <= s.net
  }

  /** The run has come to this scene. */
  ghost predicate At(states: seq<System>, t: Scene) {
    Run(states) && Shows(states[|states| - 1], t)
  }

  predicate Has(t: Scene, n: NodeId) {
    n in t.nodes && |t.nodes[n].log| > 0
  }

  lemma LastRunning(states: seq<System>)
    requires Run(states)
    ensures Running(states[|states| - 1])
  {
    RunKeeps(states, |states| - 1);
  }

  lemma Extend(states: seq<System>, step: Step) returns (more: seq<System>)
    requires Run(states) && Running(states[|states| - 1]) && Enabled(states[|states| - 1], step)
    ensures Run(more) && more == states + [Next(states[|states| - 1], step)]
  {
    more := states + [Next(states[|states| - 1], step)];
    forall i | 0 < i < |more| ensures StepAt(more, i) {
      if i < |states| {
        assert StepAt(states, i);
      } else {
        assert Steps(states[|states| - 1], more[i]);
      }
    }
  }

  lemma Moved(states: seq<System>, step: Step, t: Scene) returns (more: seq<System>)
    requires Run(states) && Running(states[|states| - 1]) && Enabled(states[|states| - 1], step)
    requires Running(Next(states[|states| - 1], step)) ==> Shows(Next(states[|states| - 1], step), t)
    ensures At(more, t)
  {
    more := Extend(states, step);
    LastRunning(more);
  }

  function TimedOut(t: Scene, n: NodeId): Scene
    requires Has(t, n)
  {
    var (r, out) := StartElection(t.nodes[n]);
    Scene(t.nodes[n := r], t.net + out)
  }

  lemma Time(states: seq<System>, t: Scene, n: NodeId) returns (more: seq<System>)
    requires At(states, t) && Has(t, n) && t.nodes[n].role != Leader
    ensures At(more, TimedOut(t, n))
  {
    more := Moved(states, Timeout(n), TimedOut(t, n));
  }

  function Delivered(t: Scene, p: Packet): Scene
    requires Has(t, p.dst)
  {
    var (r, out) := Receive(t.nodes[p.dst], p.src, p.msg);
    Scene(t.nodes[p.dst := r], t.net - multiset{p} + out)
  }

  lemma Carry(states: seq<System>, t: Scene, p: Packet) returns (more: seq<System>)
    requires At(states, t) && Has(t, p.dst) && p in t.net
    ensures At(more, Delivered(t, p))
  {
    more := Moved(states, Deliver(p), Delivered(t, p));
  }

  function Appended(t: Scene, n: NodeId, cmd: Command): Scene
    requires Has(t, n)
  {
    t.(nodes := t.nodes[n := LeaderAppend(t.nodes[n], cmd)])
  }

  lemma Append(states: seq<System>, t: Scene, n: NodeId, cmd: Command) returns (more: seq<System>)
    requires At(states, t) && Has(t, n) && t.nodes[n].role == Leader
    ensures At(more, Appended(t, n, cmd))
  {
    more := Moved(states, AppendCommand(n, cmd), Appended(t, n, cmd));
  }

  function Sent(t: Scene, n: NodeId, peer: NodeId, batch: nat): Scene
    requires Has(t, n) && peer in t.nodes[n].nextIndex
  {
    var (r, p) := SendAppend(t.nodes[n], peer, batch);
    Scene(t.nodes[n := r], t.net + multiset{p})
  }

  lemma Ship(states: seq<System>, t: Scene, n: NodeId, peer: NodeId, batch: nat) returns (more: seq<System>)
    requires At(states, t) && Has(t, n) && t.nodes[n].role == Leader
    requires peer in t.nodes[n].peers && peer in t.nodes[n].nextIndex && batch > 0
    ensures At(more, Sent(t, n, peer, batch))
  {
    more := Moved(states, SendTo(n, peer, batch), Sent(t, n, peer, batch));
  }
}
