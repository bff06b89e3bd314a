/** The whole cluster as a step system. One step is one handler run at one node, or the
    loss of one packet. The network may reorder and lose packets; it delivers each at most once. */
module Clusters {
  import opened Types
  import opened NodeSteps

  /** `voter` gave its vote of `term` to `candidate`. */
  datatype Vote = Vote(voter: int, candidate: int, term: int)

  /** What has happened so far: vote requests broadcast (candidate, term), votes given, votes a
      candidate has counted, elections won (node, term), and per term the log of its leader. */
  datatype History = History(
    requests: set<(int, int)>, votes: set<Vote>, counted: set<Vote>,
    wins: set<(int, int)>, lead: map<int, seq<Entry>>)

  datatype Cluster = Cluster(nodes: seq<Node>, net: multiset<Packet>, hist: History)

  datatype Step = Do(i: int, a: Action) | Drop(p: Packet)

  ghost predicate Init(c: Cluster) {
    && |c.nodes| > 0
    && (forall i :: 0 <= i < |c.nodes| ==> c.nodes[i] == InitialNode(i, |c.nodes|, c.nodes[i].votes))
    && c.net == multiset{}
    && c.hist == History({}, {}, {}, {}, map[])
  }

  predicate Enabled(c: Cluster, s: Step) {
    match s
    case Do(i, a) =>
      && 0 <= i < |c.nodes|
      && (a.VoteCallback? ==> c.nodes[i].voteTimers > 0)
      && Used(i, a) <= c.net
    case Drop(p) => p in c.net
  }

  function Used(i: int, a: Action): multiset<Packet> {
    if a.Receive? then multiset{Packet(a.from, i, a.msg)} else multiset{}
  }

  /** The node asks for votes: its callback fires and it has not voted. */
  predicate Asks(n: Node, a: Action) {
    a.VoteCallback? && n.votedFor == NOBODY
  }

  /** The votes node `n` gives while acting: to itself when it asks, to a candidate it grants. */
  function Given(n: Node, a: Action): set<Vote> {
    if Asks(n, a) then {Vote(n.id, n.id, n.term)}
    else if a.Receive? && a.msg.VoteRequest? && Grants(n, a.msg)
    then {Vote(n.id, a.msg.candidateId, a.msg.term)}
    else {}
  }

  function Tallied(n: Node, a: Action): set<Vote> {
    if Asks(n, a) then {Vote(n.id, n.id, n.term)}
    else if a.Receive? && a.msg.VoteResponse? && Considers(n, a.msg) && a.msg.granted == 1
    then {Vote(a.from, n.id, a.msg.term)}
    else {}
  }

  predicate Wins(before: Node, after: Node) {
    !before.role.Leader? && after.role.Leader?
  }

  function Observe(h: History, n: Node, a: Action, after: Node): History {
    History(
      h.requests + (if Asks(n, a) then {(n.id, n.term)} else {}),
      h.votes + Given(n, a),
      h.counted + Tallied(n, a),
      h.wins + (if Wins(n, after) then {(n.id, after.term)} else {}),
      if after.role.Leader? then h.lead[after.term := after.log] else h.lead)
  }

  function Next(c: Cluster, s: Step): Cluster
    requires Enabled(c, s)
  {
    match s
    case Do(i, a) =>
      var o := Act(c.nodes[i], a);
      Cluster(c.nodes[i := o.node], c.net - Used(i, a) + o.sent, Observe(c.hist, c.nodes[i], a, o.node))
    case Drop(p) => c.(net := c.net - multiset{p})
  }

  ghost predicate IsRun(states: seq<Cluster>, steps: seq<Step>) {
    && |states| == |steps| + 1
    && Init(states[0])
    && forall k :: 0 <= k < |steps| ==>
                     Enabled(states[k], steps[k]) && states[k + 1] == Next(states[k], steps[k])
  }

  /** A packet after a step was there before or was sent by it. */
  lemma NetAfter(c: Cluster, i: int, a: Action)
    requires Enabled(c, Do(i, a))
    ensures var o := Act(c.nodes[i], a);
            var c' := Next(c, Do(i, a));
            && (forall p :: p in c'.net ==> p in c.net || p in o.sent)
            && (a.Receive? ==> Packet(a.from, i, a.msg) in c.net)
  {
    assert a.Receive? ==> Packet(a.from, i, a.msg) in Used(i, a);
  }

  /** A message that is received was in the network. */
  lemma Received(c: Cluster, i: int, a: Action)
    requires Enabled(c, Do(i, a)) && a.Receive?
    ensures Packet(a.from, i, a.msg) in c.net
  {
    assert Packet(a.from, i, a.msg) in Used(i, a);
  }

  lemma RunStep(states: seq<Cluster>, steps: seq<Step>, k: nat)
    requires IsRun(states, steps) && k < |steps|
    ensures Enabled(states[k], steps[k]) && states[k + 1] == Next(states[k], steps[k])
  {
  }

  /** Wins are never forgotten. */
  lemma {:induction false} WinsGrow(states: seq<Cluster>, steps: seq<Step>, k: nat, l: nat)
    requires IsRun(states, steps) && k <= l <= |steps|
    ensures states[k].hist.wins <= states[l].hist.wins
    decreases l
  {
    if k < l {
      WinsGrow(states, steps, k, l - 1);
      assert states[(l - 1) + 1] == Next(states[l - 1], steps[l - 1]);
    }
  }
}
