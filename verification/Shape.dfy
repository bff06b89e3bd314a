/** The shape of every log and every append message in every reachable state. */
module Shape {
  import opened Types
  import opened Logs
  import opened NodeSteps
  import opened Clusters

  ghost predicate NodeShape(n: Node, i: int, total: int) {
    && n.id == i && n.total == total
    && WellFormed(n.log, n.term)
    && n.commit >= 0
    && n.nextIndex.Keys == Others(total, i)
    && n.matched.Keys == Others(total, i)
    && (forall f :: f in n.nextIndex ==> n.nextIndex[f] >= 1)
  }

  /** An append request is a well-formed slice; an append response names its sender. */
  ghost predicate PacketShape(p: Packet, total: int) {
    && 0 <= p.src < total && 0 <= p.dst < total && p.src != p.dst
    && (p.msg.AppendRequest? ==>
          p.msg.leaderId == p.src && WellFormedSlice(p.msg.prevIndex, p.msg.prevTerm, p.msg.entries, p.msg.term))
    && (p.msg.AppendResponse? ==>
          p.msg.followerId == p.src && (p.msg.success ==> p.msg.lastSynced >= 0))
    && (p.msg.VoteRequest? ==> p.msg.candidateId == p.src)
  }

  ghost predicate ShapeInv(c: Cluster) {
    && |c.nodes| > 0
    && (forall i :: 0 <= i < |c.nodes| ==> NodeShape(c.nodes[i], i, |c.nodes|))
    && (forall p :: p in c.net ==> PacketShape(p, |c.nodes|))
  }

  /** One handler keeps its node in shape and sends only packets in shape. */
  ghost predicate OutcomeShape(o: Outcome, i: int, total: int) {
    NodeShape(o.node, i, total) && forall p :: p in o.sent ==> PacketShape(p, total)
  }

  lemma ShapeTriggerAll(n: Node, total: int)
    requires 0 <= n.id < total && NodeShape(n, n.id, total)
    ensures OutcomeShape(TriggerAll(n), n.id, total)
  {
    forall p | p in TriggerAll(n).sent ensures PacketShape(p, total) {
      assert p.dst in n.nextIndex && p.msg == EntryRequest(n, p.dst);
    }
  }

  lemma ShapeAdd(n: Node, total: int, id: int, operation: int, text: string)
    requires 0 <= n.id < total && NodeShape(n, n.id, total)
    ensures OutcomeShape(AddEntry(n, id, operation, text), n.id, total)
  {
    hide TriggerAll;
    if n.role.Leader? {
      ShapeTriggerAll(n.(log := n.log + [Entry(|n.log|, n.term, id, operation, text)]), total);
    }
  }

  lemma ShapeHeartbeat(n: Node, total: int)
    requires 0 <= n.id < total && NodeShape(n, n.id, total)
    ensures OutcomeShape(OnHeartbeatTick(n), n.id, total)
  {
  }

  lemma ShapeAppendRequest(n: Node, total: int, p: Packet)
    requires 0 <= n.id < total && NodeShape(n, n.id, total)
    requires PacketShape(p, total) && p.dst == n.id && p.msg.AppendRequest?
    ensures OutcomeShape(OnAppendRequest(n, p.msg), n.id, total)
  {
    var m := p.msg;
    if m.term >= n.term && InSync(n.log, m.prevTerm, m.prevIndex) {
      AppendWellFormed(n.log, m.prevIndex, m.prevTerm, m.entries, m.term);
    }
  }

  lemma ShapeTrigger(n: Node, total: int, f: int)
    requires 0 <= n.id < total && NodeShape(n, n.id, total) && f in Others(total, n.id)
    ensures OutcomeShape(Trigger(n, f), n.id, total)
  {
  }

  lemma ShapeAppendResponse(n: Node, total: int, p: Packet)
    requires 0 <= n.id < total && NodeShape(n, n.id, total)
    requires PacketShape(p, total) && p.dst == n.id && p.msg.AppendResponse?
    ensures OutcomeShape(OnAppendResponse(n, p.msg), n.id, total)
  {
    ShapeTrigger(Digest(n, p.msg), total, p.msg.followerId);
  }

  lemma ShapeElection(n: Node, total: int, a: Action)
    requires 0 <= n.id < total && NodeShape(n, n.id, total) && !IsPassive(a)
    requires a.VoteCallback? ==> n.voteTimers > 0
    requires a.Receive? ==> PacketShape(Packet(a.from, n.id, a.msg), total)
    ensures OutcomeShape(Act(n, a), n.id, total)
  {
    ElectionActions(n, a);
  }

  lemma ShapeAct(n: Node, total: int, a: Action)
    requires 0 <= n.id < total && NodeShape(n, n.id, total)
    requires a.VoteCallback? ==> n.voteTimers > 0
    requires a.Receive? ==> PacketShape(Packet(a.from, n.id, a.msg), total)
    ensures OutcomeShape(Act(n, a), n.id, total)
  {
    if !IsPassive(a) {
      ShapeElection(n, total, a);
    } else {
      match a
      case HeartbeatTick => ShapeHeartbeat(n, total);
      case Receive(from, m) =>
        if m.AppendRequest? { ShapeAppendRequest(n, total, Packet(from, n.id, m)); }
        else { ShapeAppendResponse(n, total, Packet(from, n.id, m)); }
      case ClientPut(id, text) => ShapeAdd(n, total, id, ADD, text);
      case ClientCommit(id) => ShapeAdd(n, total, id, COMMIT, "");
    }
  }

  /** Every append request a handler sends is cut out of the log the node then has. */
  ghost predicate CutFrom(n: Node, m: Message) {
    m.AppendRequest? ==>
      && SliceOf(n.log, m.prevIndex, m.prevTerm, m.entries)
      && m.term == n.term && m.leaderCommit == n.commit
  }

  lemma CutTrigger(n: Node, f: int)
    ensures forall p :: p in Trigger(n, f).sent ==> CutFrom(Trigger(n, f).node, p.msg)
  {
  }

  lemma CutAdd(n: Node, id: int, operation: int, text: string)
    ensures forall p :: p in AddEntry(n, id, operation, text).sent ==>
                          CutFrom(AddEntry(n, id, operation, text).node, p.msg)
  {
  }

  lemma CutHeartbeat(n: Node, total: int)
    requires NodeShape(n, n.id, total)
    ensures forall p :: p in OnHeartbeatTick(n).sent ==> CutFrom(OnHeartbeatTick(n).node, p.msg)
  {
  }

  lemma SentIsCut(n: Node, total: int, a: Action)
    requires NodeShape(n, n.id, total)
    requires a.VoteCallback? ==> n.voteTimers > 0
    ensures forall p :: p in Act(n, a).sent ==> CutFrom(Act(n, a).node, p.msg)
  {
    if !IsPassive(a) {
      ElectionActions(n, a);
    } else {
      match a
      case HeartbeatTick => CutHeartbeat(n, total);
      case Receive(from, m) => if m.AppendResponse? { CutTrigger(Digest(n, m), m.followerId); }
      case ClientPut(id, text) => CutAdd(n, id, ADD, text);
      case ClientCommit(id) => CutAdd(n, id, COMMIT, "");
    }
  }

  lemma NodeHasId(c: Cluster, i: int)
    requires ShapeInv(c) && 0 <= i < |c.nodes|
    ensures c.nodes[i].id == i
  {
    assert NodeShape(c.nodes[i], i, |c.nodes|);
  }

  lemma ShapeNext(c: Cluster, s: Step)
    requires ShapeInv(c) && Enabled(c, s)
    ensures ShapeInv(Next(c, s))
  {
    hide Act, NodeShape, PacketShape, Observe;
    match s
    case Do(i, a) =>
      NetAfter(c, i, a);
      NodeHasId(c, i);
      ShapeAct(c.nodes[i], |c.nodes|, a);
    case Drop(p) =>
  }

  /** Log shape in every reachable state, without any condition on the run. */
  lemma {:induction false} LogShape(states: seq<Cluster>, steps: seq<Step>, k: nat)
    requires IsRun(states, steps) && k <= |steps|
    ensures ShapeInv(states[k])
  {
    if k > 0 {
      hide ShapeInv, Next, Enabled;
      LogShape(states, steps, k - 1);
      RunStep(states, steps, k - 1);
      ShapeNext(states[k - 1], steps[k - 1]);
    }
  }
}
