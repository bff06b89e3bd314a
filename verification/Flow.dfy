/** Flow control: what the counter of pending append requests means. */
module Flow {
  import opened Types
  import opened Logs
  import opened NodeSteps
  import opened Clusters
  import opened Shape
  import opened Bags

  /** An append request from n to f, or the response on its way back. */
  predicate Between(n: int, f: int, p: Packet) {
    || (p.src == n && p.dst == f && p.msg.AppendRequest?)
    || (p.src == f && p.dst == n && p.msg.AppendResponse?)
  }

  predicate CarriesEntries(n: int, f: int, p: Packet) {
    p.src == n && p.dst == f && p.msg.AppendRequest? && p.msg.entries != []
  }

  ghost function InFlight(m: multiset<Packet>, n: int, f: int): nat {
    Count(m, (p: Packet) => Between(n, f, p))
  }

  ghost function EntriesInFlight(m: multiset<Packet>, n: int, f: int): nat {
    Count(m, (p: Packet) => CarriesEntries(n, f, p))
  }

  ghost predicate PairInv(c: Cluster, n: int, f: int)
    requires 0 <= n < |c.nodes|
  {
    && InFlight(c.net, n, f) <= Get(c.nodes[n].pending, f)
    && EntriesInFlight(c.net, n, f) <= MAX_PENDING_APPEND
  }

  ghost predicate FlowInv(c: Cluster) {
    forall n, f :: 0 <= n < |c.nodes| && 0 <= f < |c.nodes| && n != f ==> PairInv(c, n, f)
  }

  lemma EntriesAreInFlight(m: multiset<Packet>, n: int, f: int)
    ensures EntriesInFlight(m, n, f) <= InFlight(m, n, f)
  {
    CountWeaker(m, (p: Packet) => CarriesEntries(n, f, p), (p: Packet) => Between(n, f, p));
  }

  /** How one handler changes the account of the pair (n, f): the counter moves with what is sent and taken, and
      entries are only sent through the gate. */
  ghost predicate Balanced(before: Node, o: Outcome, used: multiset<Packet>, n: int, f: int) {
    var grown := if before.id == n then Get(o.node.pending, f) - Get(before.pending, f) else 0;
    && InFlight(o.sent, n, f) - InFlight(used, n, f) == grown
    && (EntriesInFlight(o.sent, n, f) > 0 ==> before.id == n && Get(o.node.pending, f) <= MAX_PENDING_APPEND)
  }

  lemma NothingSent(n: int, f: int)
    ensures InFlight(multiset{}, n, f) == 0 && EntriesInFlight(multiset{}, n, f) == 0
  {
  }

  lemma OnePacket(p: Packet, n: int, f: int)
    ensures InFlight(multiset{p}, n, f) == if Between(n, f, p) then 1 else 0
    ensures EntriesInFlight(multiset{p}, n, f) == if CarriesEntries(n, f, p) then 1 else 0
  {
    CountRemove(multiset{p}, (q: Packet) => Between(n, f, q), p);
    CountRemove(multiset{p}, (q: Packet) => CarriesEntries(n, f, q), p);
    assert multiset{p} - multiset{p} == multiset{};
  }

  /** A batch with one append request per follower, all from `me`. */
  lemma Batch(me: int, who: set<int>, sent: multiset<Packet>, n: int, f: int)
    requires forall p :: p in sent ==> p.src == me && p.dst in who && p.msg.AppendRequest? && sent[p] == 1
    requires forall p, q :: p in sent && q in sent && p.dst == q.dst ==> p == q
    requires forall d :: d in who ==> exists p :: p in sent && p.dst == d
    ensures InFlight(sent, n, f) == if n == me && f in who then 1 else 0
  {
    if n == me && f in who {
      var p :| p in sent && p.dst == f;
      CountOne(sent, (q: Packet) => Between(n, f, q), p);
    } else {
      CountNone(sent, (q: Packet) => Between(n, f, q));
    }
  }

  lemma BroadcastBatch(me: int, total: int, msg: Message, n: int, f: int)
    requires msg.AppendRequest? && msg.entries == []
    ensures InFlight(Broadcast(me, total, msg), n, f) == if n == me && f in Others(total, me) then 1 else 0
    ensures EntriesInFlight(Broadcast(me, total, msg), n, f) == 0
  {
    var sent := Broadcast(me, total, msg);
    hide Others;
    forall d | d in Others(total, me) ensures exists p :: p in sent && p.dst == d {
      assert Packet(me, d, msg) in sent;
    }
    Batch(me, Others(total, me), sent, n, f);
    CountNone(sent, (p: Packet) => CarriesEntries(n, f, p));
  }

  lemma BalancedHeartbeat(n: Node, total: int, a: int, f: int)
    requires NodeShape(n, n.id, total)
    ensures Balanced(n, OnHeartbeatTick(n), multiset{}, a, f)
  {
    hide Broadcast, Others, WellFormed;
    NothingSent(a, f);
    if n.role.Leader? {
      BroadcastBatch(n.id, n.total, Heartbeat(n), a, f);
    }
  }

  lemma BalancedTriggerAll(n: Node, a: int, f: int)
    ensures Balanced(n, TriggerAll(n), multiset{}, a, f)
  {
    var o := TriggerAll(n);
    NothingSent(a, f);
    forall d | d in Ready(n) ensures exists p :: p in o.sent && p.dst == d {
      assert Packet(n.id, d, EntryRequest(n, d)) in o.sent;
    }
    Batch(n.id, Ready(n), o.sent, a, f);
    EntriesAreInFlight(o.sent, a, f);
  }

  lemma BalancedAdd(n: Node, id: int, operation: int, text: string, a: int, f: int)
    ensures Balanced(n, AddEntry(n, id, operation, text), multiset{}, a, f)
  {
    NothingSent(a, f);
    if n.role.Leader? {
      BalancedTriggerAll(n.(log := n.log + [Entry(|n.log|, n.term, id, operation, text)]), a, f);
    }
  }

  /** Every append request is answered by exactly one response to its sender. */
  lemma RequestReplied(n: Node, m: Message) returns (r: Packet)
    requires m.AppendRequest?
    ensures var o := OnAppendRequest(n, m);
            o.sent == multiset{r} && o.node.pending == n.pending
            && r.msg.AppendResponse? && r.src == n.id && r.dst == m.leaderId
  {
    hide Append, ApplyRange, InSync;
    var o := OnAppendRequest(n, m);
    r :| r in o.sent;
  }

  lemma BalancedRequest(n: Node, total: int, p: Packet, a: int, f: int)
    requires PacketShape(p, total) && p.dst == n.id && p.msg.AppendRequest?
    ensures Balanced(n, OnAppendRequest(n, p.msg), multiset{p}, a, f)
  {
    hide OnAppendRequest;
    var r := RequestReplied(n, p.msg);
    OnePacket(p, a, f);
    OnePacket(r, a, f);
  }

  lemma DigestPending(n: Node, m: Message)
    requires m.AppendResponse? && Get(n.pending, m.followerId) >= 1
    ensures var d := Digest(n, m);
            d.id == n.id && d.pending == n.pending[m.followerId := Get(n.pending, m.followerId) - 1]
  {
    hide ApplyRange, MajoritySynced;
  }

  lemma BalancedResponse(n: Node, total: int, p: Packet, a: int, f: int)
    requires PacketShape(p, total) && p.dst == n.id && p.msg.AppendResponse?
    requires Get(n.pending, p.src) >= 1
    ensures Balanced(n, OnAppendResponse(n, p.msg), multiset{p}, a, f)
  {
    var d := Digest(n, p.msg);
    DigestPending(n, p.msg);
    hide Digest, EntryRequest;
    OnePacket(p, a, f);
    NothingSent(a, f);
    if CanSend(d, p.src) {
      OnePacket(Packet(d.id, p.src, EntryRequest(d, p.src)), a, f);
    }
  }

  lemma BalancedElection(n: Node, act: Action, used: multiset<Packet>, a: int, f: int)
    requires act.VoteCallback? ==> n.voteTimers > 0
    requires !IsPassive(act) && forall p :: p in used ==> p.msg.VoteRequest? || p.msg.VoteResponse?
    ensures Balanced(n, Act(n, act), used, a, f)
  {
    CountNone(used, (p: Packet) => Between(a, f, p));
    ElectionActions(n, act);
    var o := Act(n, act);
    CountNone(o.sent, (p: Packet) => Between(a, f, p));
    EntriesAreInFlight(o.sent, a, f);
  }

  /** A response that arrives was counted: the counter is positive, so the clip to 0 never bites. */
  lemma NeverClips(c: Cluster, p: Packet)
    requires ShapeInv(c) && FlowInv(c) && p in c.net && p.msg.AppendResponse?
    ensures Get(c.nodes[p.dst].pending, p.msg.followerId) >= 1
  {
    assert PacketShape(p, |c.nodes|);
    assert PairInv(c, p.dst, p.src);
    CountRemove(c.net, (q: Packet) => Between(p.dst, p.src, q), p);
  }

  lemma BalancedAct(c: Cluster, i: int, a: Action, n: int, f: int)
    requires ShapeInv(c) && FlowInv(c) && Enabled(c, Do(i, a))
    ensures Balanced(c.nodes[i], Act(c.nodes[i], a), Used(i, a), n, f)
  {
    var me := c.nodes[i];
    NetAfter(c, i, a);
    assert NodeShape(me, i, |c.nodes|);
    if !IsPassive(a) {
      BalancedElection(me, a, Used(i, a), n, f);
    } else {
      match a
      case HeartbeatTick => BalancedHeartbeat(me, |c.nodes|, n, f);
      case Receive(from, m) =>
        var p := Packet(from, i, m);
        assert PacketShape(p, |c.nodes|);
        if m.AppendRequest? {
          BalancedRequest(me, |c.nodes|, p, n, f);
        } else {
          NeverClips(c, p);
          BalancedResponse(me, |c.nodes|, p, n, f);
        }
      case ClientPut(id, text) => BalancedAdd(me, id, ADD, text, n, f);
      case ClientCommit(id) => BalancedAdd(me, id, COMMIT, "", n, f);
    }
  }

  lemma PairNext(c: Cluster, i: int, a: Action, n: int, f: int)
    requires ShapeInv(c) && FlowInv(c) && Enabled(c, Do(i, a))
    requires 0 <= n < |c.nodes| && 0 <= f < |c.nodes| && n != f
    ensures PairInv(Next(c, Do(i, a)), n, f)
  {
    var o := Act(c.nodes[i], a);
    var net' := Next(c, Do(i, a)).net;
    assert NodeShape(c.nodes[i], i, |c.nodes|);
    assert PairInv(c, n, f);
    BalancedAct(c, i, a, n, f);
    CountExchange(c.net, Used(i, a), o.sent, (p: Packet) => Between(n, f, p));
    CountExchange(c.net, Used(i, a), o.sent, (p: Packet) => CarriesEntries(n, f, p));
    EntriesAreInFlight(net', n, f);
  }

  lemma FlowNext(c: Cluster, s: Step)
    requires ShapeInv(c) && FlowInv(c) && Enabled(c, s)
    ensures FlowInv(Next(c, s))
  {
    forall n, f | 0 <= n < |c.nodes| && 0 <= f < |c.nodes| && n != f ensures PairInv(Next(c, s), n, f) {
      match s
      case Do(i, a) => PairNext(c, i, a, n, f);
      case Drop(p) =>
        assert PairInv(c, n, f);
        CountRemove(c.net, (q: Packet) => Between(n, f, q), p);
        CountRemove(c.net, (q: Packet) => CarriesEntries(n, f, q), p);
    }
  }

  /** In every reachable state, for every node and follower: the pending counter covers the append
      requests and responses in flight between them, and at most MAX_PENDING_APPEND of those
      requests carry entries, although heartbeats bypass the gate. */
  lemma {:induction false} FlowControl(states: seq<Cluster>, steps: seq<Step>, k: nat)
    requires IsRun(states, steps) && k <= |steps|
    ensures ShapeInv(states[k]) && FlowInv(states[k])
  {
    LogShape(states, steps, k);
    if k > 0 {
      FlowControl(states, steps, k - 1);
      RunStep(states, steps, k - 1);
      FlowNext(states[k - 1], steps[k - 1]);
    } else {
      forall n, f | 0 <= n < |states[0].nodes| && 0 <= f < |states[0].nodes| && n != f
        ensures PairInv(states[0], n, f)
      {
        NothingSent(n, f);
      }
    }
  }

  // ---- the exact account ----

  /** How many append requests and responses between n and f the network has lost. */
  function Lost(steps: seq<Step>, n: int, f: int): nat
    decreases |steps|
  {
    if steps == [] then 0 else
      var k := |steps| - 1;
      Lost(steps[..k], n, f) + if steps[k].Drop? && Between(n, f, steps[k].p) then 1 else 0
  }

  lemma ExactStep(c: Cluster, s: Step, n: int, f: int, lost: nat)
    requires ShapeInv(c) && FlowInv(c) && Enabled(c, s)
    requires 0 <= n < |c.nodes| && 0 <= f < |c.nodes| && n != f
    requires Get(c.nodes[n].pending, f) == InFlight(c.net, n, f) + lost
    ensures var c' := Next(c, s);
            |c'.nodes| == |c.nodes| &&
            Get(c'.nodes[n].pending, f) == InFlight(c'.net, n, f) + lost + if s.Drop? && Between(n, f, s.p) then 1 else 0
  {
    match s
    case Do(i, a) =>
      assert NodeShape(c.nodes[i], i, |c.nodes|);
      BalancedAct(c, i, a, n, f);
      CountExchange(c.net, Used(i, a), Act(c.nodes[i], a).sent, (p: Packet) => Between(n, f, p));
    case Drop(p) =>
      CountRemove(c.net, (q: Packet) => Between(n, f, q), p);
  }

  /** In every state of every run the pending counter of a node for a follower is the number of append requests and
      responses in flight between them plus the number of those lost so far. */
  lemma {:induction false} FlowExact(states: seq<Cluster>, steps: seq<Step>, k: nat, n: int, f: int)
    requires IsRun(states, steps) && k <= |steps|
    requires 0 <= n < |states[0].nodes| && 0 <= f < |states[0].nodes| && n != f
    ensures |states[k].nodes| == |states[0].nodes|
    ensures Get(states[k].nodes[n].pending, f) == InFlight(states[k].net, n, f) + Lost(steps[..k], n, f)
  {
    hide Next, Enabled, FlowInv, ShapeInv, InFlight;
    if k == 0 {
      NothingSent(n, f);
      assert states[0].nodes[n] == InitialNode(n, |states[0].nodes|, states[0].nodes[n].votes);
    } else {
      FlowExact(states, steps, k - 1, n, f);
      FlowControl(states, steps, k - 1);
      RunStep(states, steps, k - 1);
      ExactStep(states[k - 1], steps[k - 1], n, f, Lost(steps[..k - 1], n, f));
      assert steps[..k][..k - 1] == steps[..k - 1];
    }
  }

  lemma {:induction false} LostGrows(steps: seq<Step>, k: nat, l: nat, n: int, f: int)
    requires k <= l <= |steps|
    ensures Lost(steps[..k], n, f) <= Lost(steps[..l], n, f)
    decreases l
  {
    if k < l {
      LostGrows(steps, k, l - 1, n, f);
      assert steps[..l][..l - 1] == steps[..l - 1];
    }
  }

  /** Once MAX_PENDING_APPEND of the append messages between a node and a follower are lost, the node never again
      sends that follower a request with entries: nothing takes the losses off the counter. */
  lemma SilentAfterLosses(states: seq<Cluster>, steps: seq<Step>, k: nat, l: nat, n: int, f: int, p: Packet)
    requires IsRun(states, steps) && k <= l < |steps| && steps[l].Do? && steps[l].i == n
    requires 0 <= n < |states[0].nodes| && 0 <= f < |states[0].nodes| && n != f
    requires Lost(steps[..k], n, f) >= MAX_PENDING_APPEND
    requires 0 <= n < |states[l].nodes| && (steps[l].a.VoteCallback? ==> states[l].nodes[n].voteTimers > 0)
    requires p in Act(states[l].nodes[n], steps[l].a).sent
    ensures !CarriesEntries(n, f, p)
  {
    if CarriesEntries(n, f, p) {
      hide Next, Enabled, FlowInv, ShapeInv, Act, Lost;
      RunStep(states, steps, l);
      FlowControl(states, steps, l);
      FlowExact(states, steps, l + 1, n, f);
      LostGrows(steps, k, l + 1, n, f);
      BalancedAct(states[l], n, steps[l].a, n, f);
      SentIsCounted(states[l], steps[l], p, n, f);
    }
  }

  lemma SentIsCounted(c: Cluster, s: Step, p: Packet, n: int, f: int)
    requires ShapeInv(c) && Enabled(c, s) && s.Do? && s.i == n && p in Act(c.nodes[n], s.a).sent && CarriesEntries(n, f, p)
    ensures c.nodes[n].id == n && |Next(c, s).nodes| == |c.nodes| && Next(c, s).nodes[n] == Act(c.nodes[n], s.a).node
    ensures EntriesInFlight(Act(c.nodes[n], s.a).sent, n, f) > 0
    ensures InFlight(Next(c, s).net, n, f) >= 1
  {
    assert NodeShape(c.nodes[n], n, |c.nodes|);
    CountRemove(Act(c.nodes[n], s.a).sent, (q: Packet) => CarriesEntries(n, f, q), p);
    assert p in Next(c, s).net;
    CountRemove(Next(c, s).net, (q: Packet) => Between(n, f, q), p);
  }
}
