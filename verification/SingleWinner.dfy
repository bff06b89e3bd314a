/** Runs in which at most one node ever wins an election: state machine safety, and why it is
    safe to let the matched index of a follower go down. */
module SingleWinner {
  import opened Types
  import opened Logs
  import opened NodeSteps
  import opened Clusters
  import opened Shape
  import opened Election

  /** No node but `w` has won. */
  ghost predicate Sole(c: Cluster, w: int) {
    0 <= w < |c.nodes| && forall x :: x in c.hist.wins ==> x.0 == w
  }

  /** The log is a prefix of the winner's, the commit index is inside the log and not ahead of the
      winner's, and exactly the entries 1..commit were applied, once and in order. */
  ghost predicate NodeSafe(n: Node, log: seq<Entry>, commit: int) {
    && n.log <= log
    && 0 <= n.commit < |n.log| && n.commit <= commit
    && n.applied == n.log[1..n.commit + 1]
  }

  /** Storage was given the entry at each value the commit index took. */
  ghost predicate StoredSafe(n: Node) {
    && |n.stored| == |n.advances|
    && (forall k :: 0 <= k < |n.advances| ==> 1 <= n.advances[k] < |n.log| && n.stored[k] == n.log[n.advances[k]])
    && (forall j, k :: 0 <= j < k < |n.advances| ==> n.advances[j] < n.advances[k])
    && n.commit == if n.advances == [] then 0 else n.advances[|n.advances| - 1]
  }

  ghost predicate PacketSafe(c: Cluster, w: int, p: Packet)
    requires 0 <= w < |c.nodes|
  {
    && (p.msg.AppendRequest? ==>
          && p.src == w
          && SliceOf(c.nodes[w].log, p.msg.prevIndex, p.msg.prevTerm, p.msg.entries)
          && p.msg.leaderCommit <= c.nodes[w].commit)
    && (p.msg.AppendResponse? ==>
          && p.dst == w
          && (p.msg.success ==> 0 <= p.src < |c.nodes| && p.msg.lastSynced < |c.nodes[p.src].log|))
  }

  /** What the winner believes a follower has, it really has. */
  ghost predicate MatchedSafe(c: Cluster, w: int)
    requires 0 <= w < |c.nodes|
  {
    forall f :: f in c.nodes[w].matched ==> 0 <= f < |c.nodes| && c.nodes[w].matched[f] < |c.nodes[f].log|
  }

  /** The nodes whose log reaches `index`. */
  function Holders(c: Cluster, index: int): set<int> {
    set i | i in Ids(|c.nodes|) && index < |c.nodes[i].log|
  }

  ghost predicate SafeInv(c: Cluster, w: int) {
    && 0 <= w < |c.nodes|
    && (forall i :: 0 <= i < |c.nodes| && c.nodes[i].role.Leader? ==> i == w)
    && (forall i :: 0 <= i < |c.nodes| ==> NodeSafe(c.nodes[i], c.nodes[w].log, c.nodes[w].commit))
    && (forall i :: 0 <= i < |c.nodes| ==> StoredSafe(c.nodes[i]))
    && (forall p :: p in c.net ==> PacketSafe(c, w, p))
    && MatchedSafe(c, w)
    && |Holders(c, c.nodes[w].commit)| > |c.nodes| / 2
  }

  /** Nothing is taken back: not an entry, not the commit index, not an applied entry. */
  ghost predicate Forward(n: Node, m: Node) {
    n.log <= m.log && n.commit <= m.commit && n.applied <= m.applied
  }

  ghost predicate AllForward(c: Cluster, c': Cluster) {
    |c.nodes| == |c'.nodes| && forall j :: 0 <= j < |c.nodes| ==> Forward(c.nodes[j], c'.nodes[j])
  }

  lemma HoldersGrow(c: Cluster, c': Cluster, index: int, index': int)
    requires |c.nodes| == |c'.nodes| && index' <= index
    requires forall i :: 0 <= i < |c.nodes| ==> |c.nodes[i].log| <= |c'.nodes[i].log|
    ensures |Holders(c, index)| <= |Holders(c', index')|
  {
    SubsetSize(Holders(c, index), Holders(c', index'));
  }

  lemma SliceGrows(log: seq<Entry>, log': seq<Entry>, m: Message)
    requires m.AppendRequest? && log <= log' && SliceOf(log, m.prevIndex, m.prevTerm, m.entries)
    ensures SliceOf(log', m.prevIndex, m.prevTerm, m.entries)
  {
    assert log'[m.prevIndex + 1..m.prevIndex + 1 + |m.entries|] == log[m.prevIndex + 1..m.prevIndex + 1 + |m.entries|];
  }

  // ---- one step, seen from outside ----

  /** Node `i` moved forward and stayed safe; what it sent is safe. */
  ghost predicate SafeMove(c: Cluster, c': Cluster, w: int, i: int) {
    && 0 <= i < |c.nodes| == |c'.nodes| && 0 <= w < |c.nodes|
    && (forall j :: 0 <= j < |c.nodes| && j != i ==> c'.nodes[j] == c.nodes[j])
    && Forward(c.nodes[i], c'.nodes[i])
    && (c'.nodes[i].role.Leader? ==> i == w)
    && NodeSafe(c'.nodes[i], c'.nodes[w].log, c'.nodes[w].commit) && StoredSafe(c'.nodes[i])
    && (forall p :: p in c'.net ==> p in c.net || PacketSafe(c', w, p))
  }

  lemma NodeKept(n: Node, w: Node, w': Node)
    requires NodeSafe(n, w.log, w.commit) && Forward(w, w')
    ensures NodeSafe(n, w'.log, w'.commit)
  {
  }

  lemma PacketKept(c: Cluster, c': Cluster, w: int, p: Packet)
    requires 0 <= w < |c.nodes| == |c'.nodes| && PacketSafe(c, w, p)
    requires AllForward(c, c')
    ensures PacketSafe(c', w, p)
  {
    assert Forward(c.nodes[w], c'.nodes[w]);
    if p.msg.AppendRequest? { SliceGrows(c.nodes[w].log, c'.nodes[w].log, p.msg); }
    if p.msg.AppendResponse? && p.msg.success { assert Forward(c.nodes[p.src], c'.nodes[p.src]); }
  }

  lemma MoveForward(c: Cluster, c': Cluster, w: int, i: int)
    requires SafeMove(c, c', w, i)
    ensures AllForward(c, c')
  {
  }

  lemma NodesAfter(c: Cluster, c': Cluster, w: int, i: int)
    requires SafeInv(c, w) && SafeMove(c, c', w, i)
    ensures forall j :: 0 <= j < |c'.nodes| ==> NodeSafe(c'.nodes[j], c'.nodes[w].log, c'.nodes[w].commit)
  {
    forall j | 0 <= j < |c'.nodes| && j != i ensures NodeSafe(c'.nodes[j], c'.nodes[w].log, c'.nodes[w].commit) {
      NodeKept(c.nodes[j], c.nodes[w], c'.nodes[w]);
    }
  }

  lemma PacketsAfter(c: Cluster, c': Cluster, w: int, i: int)
    requires SafeInv(c, w) && SafeMove(c, c', w, i)
    ensures forall p :: p in c'.net ==> PacketSafe(c', w, p)
  {
    MoveForward(c, c', w, i);
    forall p | p in c'.net ensures PacketSafe(c', w, p) {
      if p in c.net { PacketKept(c, c', w, p); }
    }
  }

  lemma SafeAfter(c: Cluster, c': Cluster, w: int, i: int)
    requires SafeInv(c, w) && SafeMove(c, c', w, i)
    requires MatchedSafe(c', w) && |Holders(c', c'.nodes[w].commit)| > |c'.nodes| / 2
    ensures SafeInv(c', w) && AllForward(c, c')
  {
    hide NodeSafe, PacketSafe, Holders, MatchedSafe, Forward;
    MoveForward(c, c', w, i);
    NodesAfter(c, c', w, i);
    PacketsAfter(c, c', w, i);
  }

  lemma MatchedKept(c: Cluster, c': Cluster, w: int)
    requires 0 <= w < |c.nodes| == |c'.nodes| && MatchedSafe(c, w) && c'.nodes[w].matched == c.nodes[w].matched
    requires AllForward(c, c')
    ensures MatchedSafe(c', w)
  {
  }

  /** When the winner's matched and commit indices do not change, the rest follows. */
  lemma SafeAfterQuiet(c: Cluster, c': Cluster, w: int, i: int)
    requires SafeInv(c, w) && SafeMove(c, c', w, i)
    requires c'.nodes[w].matched == c.nodes[w].matched && c'.nodes[w].commit == c.nodes[w].commit
    ensures SafeInv(c', w) && AllForward(c, c')
  {
    hide NodeSafe, StoredSafe, PacketSafe, Holders;
    MoveForward(c, c', w, i);
    HoldersGrow(c, c', c.nodes[w].commit, c'.nodes[w].commit);
    MatchedKept(c, c', w);
    SafeAfter(c, c', w, i);
  }

  // ---- the handlers ----

  lemma AppendExtends(log: seq<Entry>, source: seq<Entry>, prevIndex: int, prevTerm: int, entries: seq<Entry>)
    requires 0 < |log| && log <= source && SliceOf(source, prevIndex, prevTerm, entries) && InSync(log, prevTerm, prevIndex)
    ensures log <= Append(log, prevIndex, entries) <= source
  {
    var k := FirstMissingExists(log, prevIndex, entries);
    AppendIs(log, prevIndex, entries, k);
    var at := prevIndex + 1 + k;
    if k < |entries| {
      hide AppendFrom, Append, FirstMissing;
      assert entries[k] == source[at];
      assert at == |log|;
      assert log + entries[k..] == source[..prevIndex + 1 + |entries|];
    }
  }

  lemma AppliedUpTo(n: Node, to: int, log: seq<Entry>, commit: int)
    requires NodeSafe(n, log, commit) && n.commit < to < |n.log|
    ensures NodeSafe(CommitTo(n, to), log, Max(commit, to)) && Forward(n, CommitTo(n, to))
  {
    assert n.log[1..n.commit + 1] + n.log[n.commit + 1..to + 1] == n.log[1..to + 1];
  }

  lemma StoredUpTo(n: Node, to: int)
    requires StoredSafe(n) && n.commit < to < |n.log| && 0 <= n.commit
    ensures StoredSafe(CommitTo(n, to))
  {
    assert ApplyRange(n.log, to, to + 1) == [n.log[to]];
    var m := CommitTo(n, to);
    forall j, k | 0 <= j < k < |m.advances| ensures m.advances[j] < m.advances[k] {
      if k == |n.advances| { assert n.advances[j] <= n.advances[|n.advances| - 1]; }
    }
  }

  lemma CommitSafe(n: Node, to: int, log: seq<Entry>, commit: int)
    requires NodeSafe(n, log, commit) && StoredSafe(n) && n.commit < to < |n.log|
    ensures var m := CommitTo(n, to);
            && NodeSafe(m, log, Max(commit, to)) && StoredSafe(m) && Forward(n, m)
            && m.log == n.log && m.commit == to && m.matched == n.matched
  {
    AppliedUpTo(n, to, log, commit);
    StoredUpTo(n, to);
  }

  lemma LongerLogSafe(n: Node, log': seq<Entry>, log: seq<Entry>, commit: int)
    requires NodeSafe(n, log, commit) && StoredSafe(n) && n.log <= log' <= log
    ensures var m := n.(log := log');
            NodeSafe(m, log, commit) && StoredSafe(m) && Forward(n, m)
  {
    assert log'[1..n.commit + 1] == n.log[1..n.commit + 1];
  }

  /** The replicated state of the node is as before. */
  ghost predicate Stays(n: Node, m: Node) {
    && m.log == n.log && m.commit == n.commit && m.matched == n.matched
    && m.applied == n.applied && m.stored == n.stored && m.advances == n.advances
  }

  lemma StaysNode(n: Node, m: Node, log: seq<Entry>, commit: int)
    requires Stays(n, m) && NodeSafe(n, log, commit) && StoredSafe(n)
    ensures NodeSafe(m, log, commit) && StoredSafe(m) && Forward(n, m)
  {
  }

  lemma StaysMove(c: Cluster, c': Cluster, w: int, i: int)
    requires 0 <= w < |c.nodes| && 0 <= i < |c.nodes| == |c'.nodes|
    requires NodeSafe(c.nodes[i], c.nodes[w].log, c.nodes[w].commit) && StoredSafe(c.nodes[i])
    requires forall j :: 0 <= j < |c.nodes| && j != i ==> c'.nodes[j] == c.nodes[j]
    requires Stays(c.nodes[i], c'.nodes[i]) && (c'.nodes[i].role.Leader? ==> i == w)
    requires forall p :: p in c'.net ==> p in c.net || PacketSafe(c', w, p)
    ensures SafeMove(c, c', w, i)
  {
    assert c'.nodes[w].log == c.nodes[w].log && c'.nodes[w].commit == c.nodes[w].commit;
    StaysNode(c.nodes[i], c'.nodes[i], c.nodes[w].log, c.nodes[w].commit);
  }

  lemma StaysSafe(c: Cluster, w: int, i: int, used: multiset<Packet>, o: Outcome, h: History)
    requires SafeInv(c, w) && 0 <= i < |c.nodes|
    requires Stays(c.nodes[i], o.node) && (o.node.role.Leader? ==> i == w)
    requires forall p :: p in o.sent && p.msg.AppendRequest? ==> i == w && p.src == i && CutFrom(o.node, p.msg)
    requires forall p :: p in o.sent ==> !p.msg.AppendResponse?
    ensures SafeInv(Cluster(c.nodes[i := o.node], c.net - used + o.sent, h), w)
    ensures AllForward(c, Cluster(c.nodes[i := o.node], c.net - used + o.sent, h))
  {
    var c' := Cluster(c.nodes[i := o.node], c.net - used + o.sent, h);
    forall p | p in c'.net ensures p in c.net || PacketSafe(c', w, p) {
      assert p in c.net || p in o.sent;
    }
    StaysMove(c, c', w, i);
    SafeAfterQuiet(c, c', w, i);
  }

  lemma ElectionStays(n: Node, a: Action)
    requires !IsPassive(a) && (a.VoteCallback? ==> n.voteTimers > 0)
    ensures Stays(n, Act(n, a).node)
    ensures forall p :: p in Act(n, a).sent ==> !p.msg.AppendRequest? && !p.msg.AppendResponse?
  {
    ElectionActions(n, a);
  }

  lemma SafeElection(c: Cluster, w: int, i: int, a: Action)
    requires ShapeInv(c) && SafeInv(c, w) && Enabled(c, Do(i, a)) && !IsPassive(a) && Sole(Next(c, Do(i, a)), w)
    ensures SafeInv(Next(c, Do(i, a)), w)
    ensures AllForward(c, Next(c, Do(i, a)))
  {
    var n, o := c.nodes[i], Act(c.nodes[i], a);
    var h := Observe(c.hist, n, a, o.node);
    assert NodeShape(n, i, |c.nodes|);
    ElectionStays(n, a);
    assert Wins(n, o.node) ==> (i, o.node.term) in h.wins;
    StaysSafe(c, w, i, Used(i, a), o, h);
  }

  lemma NodeFacts(c: Cluster, w: int, i: int)
    requires ShapeInv(c) && SafeInv(c, w) && 0 <= i < |c.nodes|
    ensures NodeShape(c.nodes[i], i, |c.nodes|) && c.nodes[i].id == i
    ensures 0 <= w < |c.nodes| && (c.nodes[i].role.Leader? ==> i == w)
  {
    assert NodeShape(c.nodes[i], i, |c.nodes|);
  }

  lemma HeartbeatEffect(n: Node)
    ensures var o := OnHeartbeatTick(n);
            && Stays(n, o.node) && o.node.role == n.role
            && (forall p :: p in o.sent ==> n.role.Leader? && p.src == n.id && p.msg.AppendRequest?)
  {
  }

  lemma SafeHeartbeat(c: Cluster, w: int, i: int)
    requires ShapeInv(c) && SafeInv(c, w) && 0 <= i < |c.nodes|
    ensures SafeInv(Next(c, Do(i, HeartbeatTick)), w)
    ensures AllForward(c, Next(c, Do(i, HeartbeatTick)))
  {
    hide SafeInv, AllForward, ShapeInv, NodeShape, OnHeartbeatTick, Stays, CutFrom;
    NodeFacts(c, w, i);
    var n, o := c.nodes[i], OnHeartbeatTick(c.nodes[i]);
    HeartbeatEffect(n);
    CutHeartbeat(n, |c.nodes|);
    StaysSafe(c, w, i, multiset{}, o, Observe(c.hist, n, HeartbeatTick, o.node));
  }

  /** The winner extends its log. */
  ghost predicate Extends(n: Node, o: Outcome) {
    && n.role.Leader? && o.node.role == n.role && |o.node.log| == |n.log| + 1 && n.log <= o.node.log
    && o.node.commit == n.commit && o.node.matched == n.matched
    && o.node.applied == n.applied && o.node.stored == n.stored && o.node.advances == n.advances
    && (forall p :: p in o.sent ==> p.src == n.id && p.msg.AppendRequest? && CutFrom(o.node, p.msg))
  }

  lemma AddEffect(n: Node, id: int, operation: int, text: string)
    ensures var o := AddEntry(n, id, operation, text);
            if n.role.Leader? then Extends(n, o) else o == Quiet(n)
  {
    CutAdd(n, id, operation, text);
  }

  lemma ExtendsNode(n: Node, o: Outcome)
    requires Extends(n, o) && NodeSafe(n, n.log, n.commit) && StoredSafe(n)
    ensures NodeSafe(o.node, o.node.log, o.node.commit) && StoredSafe(o.node) && Forward(n, o.node)
  {
    LongerLogSafe(n, o.node.log, o.node.log, n.commit);
  }

  lemma ExtendsMove(c: Cluster, w: int, o: Outcome, c': Cluster)
    requires 0 <= w < |c.nodes| && c.nodes[w].id == w && Extends(c.nodes[w], o)
    requires NodeSafe(c.nodes[w], c.nodes[w].log, c.nodes[w].commit) && StoredSafe(c.nodes[w])
    requires c'.nodes == c.nodes[w := o.node] && c'.net == c.net + o.sent
    ensures SafeMove(c, c', w, w)
  {
    ExtendsNode(c.nodes[w], o);
    forall p | p in c'.net ensures p in c.net || PacketSafe(c', w, p) {
      assert p in c.net || p in o.sent;
    }
  }

  lemma ExtendsSafe(c: Cluster, w: int, o: Outcome, h: History)
    requires SafeInv(c, w) && c.nodes[w].id == w && Extends(c.nodes[w], o)
    ensures SafeInv(Cluster(c.nodes[w := o.node], c.net + o.sent, h), w)
    ensures AllForward(c, Cluster(c.nodes[w := o.node], c.net + o.sent, h))
  {
    var c' := Cluster(c.nodes[w := o.node], c.net + o.sent, h);
    assert NodeSafe(c.nodes[w], c.nodes[w].log, c.nodes[w].commit) && StoredSafe(c.nodes[w]);
    ExtendsMove(c, w, o, c');
    SafeAfterQuiet(c, c', w, w);
  }

  lemma SafeAdd(c: Cluster, w: int, i: int, a: Action)
    requires ShapeInv(c) && SafeInv(c, w) && Enabled(c, Do(i, a)) && (a.ClientPut? || a.ClientCommit?)
    ensures SafeInv(Next(c, Do(i, a)), w)
    ensures AllForward(c, Next(c, Do(i, a)))
  {
    hide SafeInv, AllForward, ShapeInv, AddEntry, Extends;
    NodeFacts(c, w, i);
    var n, o := c.nodes[i], Act(c.nodes[i], a);
    var h := Observe(c.hist, n, a, o.node);
    if a.ClientPut? { AddEffect(n, a.id, ADD, a.text); } else { AddEffect(n, a.id, COMMIT, ""); }
    if n.role.Leader? {
      assert c.net - Used(i, a) + o.sent == c.net + o.sent;
      ExtendsSafe(c, w, o, h);
    } else {
      StaysSafe(c, w, i, Used(i, a), o, h);
    }
  }

  // A follower takes a request of the winner.

  lemma AcceptSafe(n: Node, m: Message, log: seq<Entry>, commit: int)
    requires m.AppendRequest? && NodeSafe(n, log, commit) && StoredSafe(n) && m.leaderCommit <= commit
    ensures var b := FollowerCommit(Accept(n, m), m.leaderCommit);
            NodeSafe(b, log, commit) && StoredSafe(b) && Forward(n, b) && b.log == n.log
  {
    var a := Accept(n, m);
    StaysNode(n, a, log, commit);
    if a.commit < m.leaderCommit < |a.log| { CommitSafe(a, m.leaderCommit, log, commit); }
  }

  lemma RequestSafe(n: Node, m: Message, log: seq<Entry>, commit: int)
    requires m.AppendRequest? && SliceOf(log, m.prevIndex, m.prevTerm, m.entries) && m.leaderCommit <= commit
    requires NodeSafe(n, log, commit) && StoredSafe(n)
    ensures var r := OnAppendRequest(n, m).node;
            NodeSafe(r, log, commit) && StoredSafe(r) && Forward(n, r)
  {
    AcceptSafe(n, m, log, commit);
    if m.term < n.term {
      StaysNode(n, n.(leader := NOBODY), log, commit);
    } else if InSync(n.log, m.prevTerm, m.prevIndex) {
      var b := FollowerCommit(Accept(n, m), m.leaderCommit);
      AppendExtends(b.log, log, m.prevIndex, m.prevTerm, m.entries);
      LongerLogSafe(b, Append(b.log, m.prevIndex, m.entries), log, commit);
    } else {
      StaysNode(n, Accept(n, m), log, commit);
    }
  }

  /** The reply goes to the winner and reports no more than the log has. */
  ghost predicate ReplySafe(n: Node, w: int, p: Packet) {
    && p.src == n.id && p.dst == w && p.msg.AppendResponse?
    && (p.msg.success ==> p.msg.lastSynced < |n.log|)
  }

  lemma RequestReply(n: Node, m: Message, total: int)
    requires m.AppendRequest? && NodeShape(OnAppendRequest(n, m).node, n.id, total)
    ensures forall p :: p in OnAppendRequest(n, m).sent ==> ReplySafe(OnAppendRequest(n, m).node, m.leaderId, p)
    ensures OnAppendRequest(n, m).node.role.Leader? ==> n.role.Leader?
  {
    hide Append, ApplyRange, InSync;
  }

  lemma FollowerMove(c: Cluster, w: int, i: int, used: multiset<Packet>, o: Outcome, c': Cluster)
    requires 0 <= w < |c.nodes| && 0 <= i < |c.nodes| && i != w && o.node.id == i
    requires NodeSafe(o.node, c.nodes[w].log, c.nodes[w].commit) && StoredSafe(o.node) && Forward(c.nodes[i], o.node)
    requires !o.node.role.Leader?
    requires forall p :: p in o.sent ==> ReplySafe(o.node, w, p)
    requires c'.nodes == c.nodes[i := o.node] && c'.net == c.net - used + o.sent
    ensures SafeMove(c, c', w, i)
  {
    forall p | p in c'.net ensures p in c.net || PacketSafe(c', w, p) {
      assert p in c.net || ReplySafe(o.node, w, p);
    }
  }

  lemma RequestFacts(c: Cluster, w: int, i: int, a: Action)
    requires ShapeInv(c) && SafeInv(c, w) && Enabled(c, Do(i, a)) && a.Receive? && a.msg.AppendRequest?
    ensures 0 <= i < |c.nodes| && 0 <= w < |c.nodes| && i != w && a.msg.leaderId == w
    ensures c.nodes[i].id == i && !c.nodes[i].role.Leader?
    ensures NodeSafe(c.nodes[i], c.nodes[w].log, c.nodes[w].commit) && StoredSafe(c.nodes[i])
    ensures SliceOf(c.nodes[w].log, a.msg.prevIndex, a.msg.prevTerm, a.msg.entries)
    ensures a.msg.leaderCommit <= c.nodes[w].commit
    ensures OutcomeShape(OnAppendRequest(c.nodes[i], a.msg), i, |c.nodes|)
  {
    hide OnAppendRequest;
    Received(c, i, a);
    var q := Packet(a.from, i, a.msg);
    assert NodeShape(c.nodes[i], i, |c.nodes|) && PacketShape(q, |c.nodes|) && PacketSafe(c, w, q);
    ShapeAppendRequest(c.nodes[i], |c.nodes|, q);
  }

  lemma FollowerSafe(c: Cluster, w: int, i: int, used: multiset<Packet>, o: Outcome, h: History)
    requires SafeInv(c, w) && 0 <= i < |c.nodes| && i != w && o.node.id == i
    requires NodeSafe(o.node, c.nodes[w].log, c.nodes[w].commit) && StoredSafe(o.node) && Forward(c.nodes[i], o.node)
    requires !o.node.role.Leader?
    requires forall p :: p in o.sent ==> ReplySafe(o.node, w, p)
    ensures SafeInv(Cluster(c.nodes[i := o.node], c.net - used + o.sent, h), w)
    ensures AllForward(c, Cluster(c.nodes[i := o.node], c.net - used + o.sent, h))
  {
    var c' := Cluster(c.nodes[i := o.node], c.net - used + o.sent, h);
    FollowerMove(c, w, i, used, o, c');
    SafeAfterQuiet(c, c', w, i);
  }

  lemma SafeRequest(c: Cluster, w: int, i: int, a: Action)
    requires ShapeInv(c) && SafeInv(c, w) && Enabled(c, Do(i, a)) && a.Receive? && a.msg.AppendRequest?
    ensures SafeInv(Next(c, Do(i, a)), w)
    ensures AllForward(c, Next(c, Do(i, a)))
  {
    hide SafeInv, AllForward, ShapeInv, OnAppendRequest, NodeSafe, StoredSafe, ReplySafe, Forward, SliceOf;
    RequestFacts(c, w, i, a);
    var n, o := c.nodes[i], OnAppendRequest(c.nodes[i], a.msg);
    RequestSafe(n, a.msg, c.nodes[w].log, c.nodes[w].commit);
    RequestReply(n, a.msg, |c.nodes|);
    FollowerSafe(c, w, i, Used(i, a), o, Observe(c.hist, n, a, o.node));
  }

  // The winner takes a response.

  /** The matched index of the follower takes the reported value, up or down; then the winner may commit. */
  function Believes(n: Node, m: Message): Node
    requires m.AppendResponse?
  {
    if m.success then LeaderCommit(n.(matched := n.matched[m.followerId := m.lastSynced]), m.lastSynced) else n
  }

  lemma DigestEffect(n: Node, m: Message)
    requires m.AppendResponse?
    ensures Stays(Believes(n, m), Digest(n, m)) && Digest(n, m).role == n.role && Digest(n, m).id == n.id
  {
  }

  lemma TriggerEffect(n: Node, f: int)
    ensures var o := Trigger(n, f);
            && Stays(n, o.node) && o.node.role == n.role
            && (forall p :: p in o.sent ==> p.src == n.id && p.msg.AppendRequest? && CutFrom(o.node, p.msg))
  {
    CutTrigger(n, f);
  }

  lemma ResponseEffect(n: Node, m: Message)
    requires m.AppendResponse?
    ensures var o := OnAppendResponse(n, m);
            && Stays(Believes(n, m), o.node) && o.node.role == n.role
            && (forall p :: p in o.sent ==> p.src == n.id && p.msg.AppendRequest? && CutFrom(o.node, p.msg))
  {
    DigestEffect(n, m);
    TriggerEffect(Digest(n, m), m.followerId);
  }

  /** The winner commits only what a strict majority, itself included, really holds. */
  lemma CommitHeld(c: Cluster, w: int, matched: map<int, int>, index: int)
    requires 0 <= w < |c.nodes| && w !in matched && index < |c.nodes[w].log|
    requires forall f :: f in matched ==> 0 <= f < |c.nodes| && matched[f] < |c.nodes[f].log|
    ensures |SyncedWith(matched, index)| + 1 <= |Holders(c, index)|
  {
    SubsetSize(SyncedWith(matched, index) + {w}, Holders(c, index));
  }

  lemma MatchedApart(n: Node, m: Node, log: seq<Entry>, commit: int)
    requires NodeSafe(n, log, commit) && StoredSafe(n) && m == n.(matched := m.matched)
    ensures NodeSafe(m, log, commit) && StoredSafe(m)
  {
  }

  lemma ForwardTrans(a: Node, b: Node, c: Node)
    requires a.log == b.log && a.commit == b.commit && a.applied == b.applied && Forward(b, c)
    ensures Forward(a, c)
  {
  }

  lemma BelievesSafe(n: Node, m: Message)
    requires m.AppendResponse? && NodeSafe(n, n.log, n.commit) && StoredSafe(n)
    requires m.success ==> m.lastSynced < |n.log|
    ensures var b := Believes(n, m);
            && NodeSafe(b, b.log, b.commit) && StoredSafe(b) && Forward(n, b) && b.log == n.log
            && b.matched == (if m.success then n.matched[m.followerId := m.lastSynced] else n.matched)
            && (b.commit != n.commit ==> m.success && b.commit == m.lastSynced &&
                                         |SyncedWith(b.matched, b.commit)| + 1 > n.total / 2)
  {
    hide CommitTo, NodeSafe, StoredSafe;
    var a := n.(matched := n.matched[m.followerId := m.lastSynced]);
    MatchedApart(n, a, n.log, n.commit);
    if m.success && n.commit < m.lastSynced && MajoritySynced(a, m.lastSynced) {
      CommitSafe(a, m.lastSynced, n.log, n.commit);
      ForwardTrans(n, a, CommitTo(a, m.lastSynced));
    }
  }

  lemma WinnerMove(c: Cluster, w: int, b: Node, used: multiset<Packet>, o: Outcome, c': Cluster)
    requires 0 <= w < |c.nodes| && c.nodes[w].id == w
    requires NodeSafe(b, b.log, b.commit) && StoredSafe(b) && Forward(c.nodes[w], b) && Stays(b, o.node)
    requires forall p :: p in o.sent ==> p.src == w && p.msg.AppendRequest? && CutFrom(o.node, p.msg)
    requires c'.nodes == c.nodes[w := o.node] && c'.net == c.net - used + o.sent
    ensures SafeMove(c, c', w, w)
  {
    StaysNode(b, o.node, b.log, b.commit);
    forall p | p in c'.net ensures p in c.net || PacketSafe(c', w, p) {
      assert p in c.net || p in o.sent;
    }
  }

  /** After the winner took the response: the matched indices and the commit index are still backed by logs. */
  lemma WinnerBacked(c: Cluster, w: int, m: Message, o: Outcome, c': Cluster)
    requires 0 <= w < |c.nodes| && NodeShape(c.nodes[w], w, |c.nodes|)
    requires MatchedSafe(c, w) && |Holders(c, c.nodes[w].commit)| > |c.nodes| / 2
    requires m.AppendResponse? && m.followerId in Others(|c.nodes|, w)
    requires m.success ==> m.lastSynced < |c.nodes[m.followerId].log| <= |c.nodes[w].log|
    requires NodeSafe(c.nodes[w], c.nodes[w].log, c.nodes[w].commit) && StoredSafe(c.nodes[w])
    requires Stays(Believes(c.nodes[w], m), o.node) && c'.nodes == c.nodes[w := o.node]
    ensures MatchedSafe(c', w) && |Holders(c', c'.nodes[w].commit)| > |c'.nodes| / 2
  {
    hide Believes, NodeSafe, StoredSafe, Holders;
    var n, b := c.nodes[w], Believes(c.nodes[w], m);
    BelievesSafe(n, m);
    if b.commit == n.commit {
      HoldersGrow(c, c', n.commit, n.commit);
    } else {
      CommitHeld(c', w, b.matched, b.commit);
    }
  }

  lemma ResponseSafe(c: Cluster, w: int, f: int, m: Message, used: multiset<Packet>, o: Outcome, h: History)
    requires SafeInv(c, w) && NodeShape(c.nodes[w], w, |c.nodes|)
    requires m.AppendResponse? && m.followerId == f && f in Others(|c.nodes|, w)
    requires m.success ==> m.lastSynced < |c.nodes[f].log|
    requires Stays(Believes(c.nodes[w], m), o.node)
    requires forall p :: p in o.sent ==> p.src == w && p.msg.AppendRequest? && CutFrom(o.node, p.msg)
    ensures SafeInv(Cluster(c.nodes[w := o.node], c.net - used + o.sent, h), w)
    ensures AllForward(c, Cluster(c.nodes[w := o.node], c.net - used + o.sent, h))
  {
    var n, c' := c.nodes[w], Cluster(c.nodes[w := o.node], c.net - used + o.sent, h);
    assert NodeSafe(n, n.log, n.commit) && StoredSafe(n);
    assert NodeSafe(c.nodes[f], n.log, n.commit);
    BelievesSafe(n, m);
    WinnerMove(c, w, Believes(n, m), used, o, c');
    WinnerBacked(c, w, m, o, c');
    SafeAfter(c, c', w, w);
  }

  lemma ResponseFacts(c: Cluster, w: int, i: int, a: Action)
    requires ShapeInv(c) && SafeInv(c, w) && Enabled(c, Do(i, a)) && a.Receive? && a.msg.AppendResponse?
    ensures i == w && c.nodes[w].id == w && NodeShape(c.nodes[w], w, |c.nodes|)
    ensures a.msg.followerId == a.from && a.from in Others(|c.nodes|, w)
    ensures a.msg.success ==> a.msg.lastSynced < |c.nodes[a.from].log|
  {
    hide NodeSafe, StoredSafe, Holders, MatchedSafe, SliceOf, WellFormed, WellFormedSlice;
    Received(c, i, a);
    var q := Packet(a.from, i, a.msg);
    assert PacketShape(q, |c.nodes|) && PacketSafe(c, w, q);
  }

  lemma SafeResponse(c: Cluster, w: int, i: int, a: Action)
    requires ShapeInv(c) && SafeInv(c, w) && Enabled(c, Do(i, a)) && a.Receive? && a.msg.AppendResponse?
    ensures SafeInv(Next(c, Do(i, a)), w)
    ensures AllForward(c, Next(c, Do(i, a)))
  {
    hide SafeInv, AllForward, ShapeInv, NodeShape, OnAppendResponse, Believes, Stays, CutFrom;
    ResponseFacts(c, w, i, a);
    var o := OnAppendResponse(c.nodes[i], a.msg);
    ResponseEffect(c.nodes[i], a.msg);
    ResponseSafe(c, w, a.from, a.msg, Used(i, a), o, Observe(c.hist, c.nodes[i], a, o.node));
  }

  // ---- all steps, all runs ----

  lemma SafeDrop(c: Cluster, w: int, p: Packet)
    requires SafeInv(c, w) && p in c.net
    ensures SafeInv(Next(c, Drop(p)), w)
    ensures AllForward(c, Next(c, Drop(p)))
  {
    hide NodeSafe, StoredSafe;
    var c' := Next(c, Drop(p));
    forall q | q in c'.net ensures PacketSafe(c', w, q) {
      assert PacketSafe(c, w, q);
    }
    HoldersGrow(c, c', c.nodes[w].commit, c.nodes[w].commit);
  }

  lemma SafeNext(c: Cluster, w: int, s: Step)
    requires ShapeInv(c) && SafeInv(c, w) && Enabled(c, s) && Sole(Next(c, s), w)
    ensures SafeInv(Next(c, s), w)
    ensures AllForward(c, Next(c, s))
  {
    match s
    case Drop(p) => SafeDrop(c, w, p);
    case Do(i, a) =>
      if !IsPassive(a) {
        SafeElection(c, w, i, a);
      } else {
        match a
        case HeartbeatTick => SafeHeartbeat(c, w, i);
        case ClientPut(_, _) => SafeAdd(c, w, i, a);
        case ClientCommit(_) => SafeAdd(c, w, i, a);
        case Receive(_, m) => if m.AppendRequest? { SafeRequest(c, w, i, a); } else { SafeResponse(c, w, i, a); }
      }
  }

  lemma SafeInit(c: Cluster, w: int)
    requires Init(c) && 0 <= w < |c.nodes|
    ensures SafeInv(c, w)
  {
    forall i | 0 <= i < |c.nodes| ensures NodeSafe(c.nodes[i], c.nodes[w].log, c.nodes[w].commit) && StoredSafe(c.nodes[i]) {
      assert c.nodes[i].log == [SENTINEL] == c.nodes[w].log;
    }
    assert Holders(c, 0) == Ids(|c.nodes|);
  }

  lemma SafeStep(c: Cluster, w: int, s: Step, c': Cluster)
    requires ShapeInv(c) && SafeInv(c, w) && Enabled(c, s) && c' == Next(c, s) && Sole(c', w)
    ensures SafeInv(c', w) && AllForward(c, c')
  {
    SafeNext(c, w, s);
  }

  /** A run in which nobody but `w` ever wins, judged by its last state. */
  ghost predicate SoleRun(states: seq<Cluster>, steps: seq<Step>, w: int) {
    IsRun(states, steps) && Sole(states[|steps|], w)
  }

  lemma {:induction false} SameSize(states: seq<Cluster>, steps: seq<Step>, k: nat)
    requires IsRun(states, steps) && k <= |steps|
    ensures |states[k].nodes| == |states[|steps|].nodes|
    decreases |steps| - k
  {
    if k < |steps| {
      RunStep(states, steps, k);
      SameSize(states, steps, k + 1);
    }
  }

  lemma SoleAlways(states: seq<Cluster>, steps: seq<Step>, w: int, k: nat)
    requires SoleRun(states, steps, w) && k <= |steps|
    ensures Sole(states[k], w)
  {
    WinsGrow(states, steps, k, |steps|);
    SameSize(states, steps, k);
  }

  lemma {:induction false} SafeReachable(states: seq<Cluster>, steps: seq<Step>, w: int, k: nat)
    requires SoleRun(states, steps, w) && k <= |steps|
    ensures SafeInv(states[k], w)
  {
    hide SafeInv, AllForward, ShapeInv, Sole, Next, Enabled;
    SoleAlways(states, steps, w, k);
    if k == 0 {
      SafeInit(states[0], w);
    } else {
      SafeReachable(states, steps, w, k - 1);
      LogShape(states, steps, k - 1);
      RunStep(states, steps, k - 1);
      SafeStep(states[k - 1], w, steps[k - 1], states[k]);
    }
  }

  lemma {:induction false} ForwardAlways(states: seq<Cluster>, steps: seq<Step>, w: int, k: nat, l: nat)
    requires SoleRun(states, steps, w) && k <= l <= |steps|
    ensures AllForward(states[k], states[l])
    decreases l
  {
    hide AllForward, Next, Enabled, Init;
    ForwardSame(states[k]);
    if k < l {
      ForwardAlways(states, steps, w, k, l - 1);
      ForwardOnce(states, steps, w, l - 1);
      ForwardChain(states[k], states[l - 1], states[l]);
    }
  }

  lemma ForwardSame(c: Cluster)
    ensures AllForward(c, c)
  {
  }

  lemma ForwardOnce(states: seq<Cluster>, steps: seq<Step>, w: int, k: nat)
    requires SoleRun(states, steps, w) && k < |steps|
    ensures AllForward(states[k], states[k + 1])
  {
    hide SafeInv, AllForward, ShapeInv, Sole, Next, Enabled;
    SafeReachable(states, steps, w, k);
    SoleAlways(states, steps, w, k + 1);
    LogShape(states, steps, k);
    RunStep(states, steps, k);
    SafeStep(states[k], w, steps[k], states[k + 1]);
  }

  lemma ForwardChain(a: Cluster, b: Cluster, c: Cluster)
    requires AllForward(a, b) && AllForward(b, c)
    ensures AllForward(a, c)
  {
    forall j | 0 <= j < |a.nodes| ensures Forward(a.nodes[j], c.nodes[j]) {
      assert Forward(a.nodes[j], b.nodes[j]) && Forward(b.nodes[j], c.nodes[j]);
    }
  }

  lemma SafeNode(c: Cluster, w: int, i: int)
    requires SafeInv(c, w) && 0 <= i < |c.nodes|
    ensures 0 <= w < |c.nodes| && NodeSafe(c.nodes[i], c.nodes[w].log, c.nodes[w].commit)
  {
  }

  lemma ForwardNode(c: Cluster, c': Cluster, i: int)
    requires AllForward(c, c') && 0 <= i < |c.nodes|
    ensures |c.nodes| == |c'.nodes| && Forward(c.nodes[i], c'.nodes[i])
  {
  }

  lemma AppliedComparable(a: Node, b: Node, w: Node, w': Node)
    requires NodeSafe(a, w.log, w.commit) && NodeSafe(b, w'.log, w'.commit) && Forward(w, w')
    ensures a.log <= w.log && 0 <= a.commit < |a.log| && a.applied == a.log[1..a.commit + 1]
    ensures a.applied <= b.applied || b.applied <= a.applied
  {
    var log := w'.log;
    assert a.applied == log[1..a.commit + 1];
    assert b.applied == log[1..b.commit + 1];
  }

  /** State machine safety: every log is a prefix of the winner's, exactly the entries 1..commit were
      applied, once and in order, and what any two nodes ever applied is the same as far as it goes. */
  lemma StateMachineSafety(states: seq<Cluster>, steps: seq<Step>, w: int, k: nat, l: nat, i: int, j: int)
    requires SoleRun(states, steps, w) && k <= l <= |steps|
    requires 0 <= i < |states[k].nodes| && 0 <= j < |states[l].nodes|
    ensures 0 <= w < |states[k].nodes|
    ensures var a, b := states[k].nodes[i], states[l].nodes[j];
            && a.log <= states[k].nodes[w].log
            && 0 <= a.commit < |a.log| && a.applied == a.log[1..a.commit + 1]
            && (a.applied <= b.applied || b.applied <= a.applied)
  {
    hide SafeInv, AllForward, NodeSafe, Forward, Next, Enabled, Init;
    SafeReachable(states, steps, w, k);
    SafeReachable(states, steps, w, l);
    SafeNode(states[k], w, i);
    SafeNode(states[l], w, j);
    ForwardAlways(states, steps, w, k, l);
    ForwardNode(states[k], states[l], w);
    AppliedComparable(states[k].nodes[i], states[l].nodes[j], states[k].nodes[w], states[l].nodes[w]);
  }

  /** A commit reported by a follower never points past the winner's log: the out-of-bound branch is dead. */
  lemma CommitInBounds(states: seq<Cluster>, steps: seq<Step>, w: int, k: nat, p: Packet)
    requires SoleRun(states, steps, w) && k <= |steps|
    requires p in states[k].net && p.msg.AppendResponse? && p.msg.success
    ensures p.dst == w && 0 <= w < |states[k].nodes| && p.msg.lastSynced < |states[k].nodes[w].log|
  {
    SafeReachable(states, steps, w, k);
    assert PacketSafe(states[k], w, p);
    assert NodeSafe(states[k].nodes[p.src], states[k].nodes[w].log, states[k].nodes[w].commit);
  }

  lemma SafeMatched(c: Cluster, w: int)
    requires SafeInv(c, w)
    ensures 0 <= w < |c.nodes| && MatchedSafe(c, w)
  {
  }

  /** A strict majority has entry `index`, and has there what `n` has. */
  ghost predicate HeldByMajority(c: Cluster, n: Node, index: nat) {
    && index < |n.log|
    && |Holders(c, index)| > |c.nodes| / 2
    && forall j :: j in Holders(c, index) ==> c.nodes[j].log[index] == n.log[index]
  }

  /** Every index node `n` had committed when the winner was `past` is held by a majority now. */
  lemma CommittedHeld(c: Cluster, w: int, n: Node, past: Node, index: int)
    requires SafeInv(c, w) && NodeSafe(n, past.log, past.commit) && Forward(past, c.nodes[w])
    requires 0 <= index <= n.commit
    ensures HeldByMajority(c, n, index)
  {
    HoldersGrow(c, c, c.nodes[w].commit, index);
    forall j | j in Holders(c, index) ensures c.nodes[j].log[index] == n.log[index] {
      assert NodeSafe(c.nodes[j], c.nodes[w].log, c.nodes[w].commit);
    }
  }

  /** Letting the matched index go down is safe: it never exceeds what the follower has, the commit index
      of no node ever goes down, and every index committed anywhere is from then on in the logs of a strict
      majority, with the entry that was committed. */
  lemma MatchedIndexMayDecrease(states: seq<Cluster>, steps: seq<Step>, w: int, k: nat, l: nat, i: int)
    requires SoleRun(states, steps, w) && k <= l <= |steps| && 0 <= i < |states[k].nodes|
    ensures 0 <= w < |states[k].nodes| == |states[l].nodes|
    ensures MatchedSafe(states[k], w)
    ensures states[k].nodes[i].commit <= states[l].nodes[i].commit
    ensures var n, c := states[k].nodes[i], states[l];
            forall index :: 0 <= index <= n.commit ==> HeldByMajority(c, n, index)
  {
    hide SafeInv, AllForward, NodeSafe, MatchedSafe, Next, Enabled, Init;
    SafeReachable(states, steps, w, k);
    SafeReachable(states, steps, w, l);
    ForwardAlways(states, steps, w, k, l);
    SafeNode(states[k], w, i);
    ForwardNode(states[k], states[l], w);
    ForwardNode(states[k], states[l], i);
    SafeMatched(states[k], w);
    forall index | 0 <= index <= states[k].nodes[i].commit
      ensures HeldByMajority(states[l], states[k].nodes[i], index)
    {
      CommittedHeld(states[l], w, states[k].nodes[i], states[k].nodes[w], index);
    }
  }
}
