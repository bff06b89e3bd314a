/** Elections come to something: a candidate that a majority is free to vote for wins, in a cluster of any size. */
module Progress {
  import opened Types
  import opened NodeSteps
  import opened Clusters
  import opened Shape
  import opened Election
  import opened Duties

  /** The voter whose vote of the term a step hands to node i, if it does. */
  function VoteIn(s: Step, i: int, term: int): set<int> {
    if s.Do? && s.i == i && s.a.Receive? && s.a.msg == VoteResponse(term, 1) then {s.a.from} else {}
  }

  /** Those whose vote of the term node i is handed in the steps after step a and before step k. */
  function Heard(steps: seq<Step>, a: nat, k: nat, i: int, term: int): set<int>
    requires a < k <= |steps|
    decreases k
  {
    if k == a + 1 then {} else Heard(steps, a, k - 1, i, term) + VoteIn(steps[k - 1], i, term)
  }

  /** Node i stands in `term` with a vote from each of `heard` besides its own, or leads already. */
  ghost predicate Stands(n: Node, i: int, term: int, heard: set<int>) {
    && n.term == term
    && (n.role.Leader? || (n.role.Candidate? && n.votedFor == i && n.votes >= 1 + |heard|
                           && (heard != {} ==> 2 * n.votes <= n.total)))
  }

  /** What any handler does to a node that stands, as long as it neither moves its term nor becomes a follower. */
  lemma StandsOn(n: Node, a: Action, i: int, term: int, heard: set<int>)
    requires (a.VoteCallback? ==> n.voteTimers > 0) && n.id == i != NOBODY && Stands(n, i, term, heard)
    requires Act(n, a).node.term == term && !Act(n, a).node.role.Follower?
    ensures Stands(Act(n, a).node, i, term,
                   heard + if a.Receive? && a.msg == VoteResponse(term, 1) then {a.from} else {})
  {
    if IsPassive(a) {
      PassiveActions(n, a);
    } else if a.Receive? && a.msg.VoteResponse? {
      ElectedIff(n, a.msg);
    } else if a.Receive? {
      VoteGrantedIff(n, a.msg);
      VoteRefusedIff(n, a.msg);
    }
  }

  /** Node i is left alone in the states after step a up to k: it stays in the term and no leader turns up. */
  ghost predicate Undisturbed(states: seq<Cluster>, a: nat, k: nat, i: int, term: int)
    requires k < |states|
  {
    forall l :: a < l <= k ==> 0 <= i < |states[l].nodes| && states[l].nodes[i].term == term && !states[l].nodes[i].role.Follower?
  }

  ghost predicate AsksAt(states: seq<Cluster>, steps: seq<Step>, a: nat, i: int, term: int)
    requires a < |steps| && |states| == |steps| + 1
  {
    && steps[a] == Do(i, VoteCallback) && 0 <= i < |states[a].nodes|
    && Asks(states[a].nodes[i], VoteCallback) && states[a].nodes[i].term == term
  }

  lemma {:induction false} StandsAlways(states: seq<Cluster>, steps: seq<Step>, a: nat, k: nat, i: int, term: int)
    requires IsRun(states, steps) && a < k <= |steps| && AsksAt(states, steps, a, i, term)
    requires Undisturbed(states, a, k, i, term)
    ensures Stands(states[k].nodes[i], i, term, Heard(steps, a, k, i, term))
    decreases k
  {
    hide Act, Stands, ShapeInv, ElectionInv, VoteIn, Next, Enabled, Init;
    ElectionReachable(states, steps, k - 1);
    RunStep(states, steps, k - 1);
    if k == a + 1 {
      FirstStand(states[a], states[k], i, term);
    } else {
      StandsAlways(states, steps, a, k - 1, i, term);
      NextStand(states[k - 1], steps[k - 1], states[k], i, term, Heard(steps, a, k - 1, i, term));
    }
  }

  lemma FirstStand(c: Cluster, c': Cluster, i: int, term: int)
    requires ShapeInv(c) && ElectionInv(c) && Enabled(c, Do(i, VoteCallback)) && c' == Next(c, Do(i, VoteCallback))
    requires Asks(c.nodes[i], VoteCallback) && c.nodes[i].term == term && !c'.nodes[i].role.Follower?
    ensures Stands(c'.nodes[i], i, term, {})
  {
    hide VotesInv, PacketsInv;
    assert NodeShape(c.nodes[i], i, |c.nodes|) && CandidateOk(c, i);
  }

  lemma NextStand(c: Cluster, s: Step, c': Cluster, i: int, term: int, heard: set<int>)
    requires ShapeInv(c) && Enabled(c, s) && c' == Next(c, s) && 0 <= i < |c.nodes| && Stands(c.nodes[i], i, term, heard)
    requires c'.nodes[i].term == term && !c'.nodes[i].role.Follower?
    ensures Stands(c'.nodes[i], i, term, heard + VoteIn(s, i, term))
  {
    assert NodeShape(c.nodes[i], i, |c.nodes|);
    if s.Do? && s.i == i {
      hide Act, Stands;
      StandsOn(c.nodes[i], s.a, i, term, heard);
    } else {
      assert heard + {} == heard;
    }
  }

  /** In step g voter j, free to vote, handles the request of node i; in step b node i handles the answer sent. */
  ghost predicate AnswerArrives(states: seq<Cluster>, steps: seq<Step>, i: int, term: int, j: int, g: nat, b: nat)
    requires IsRun(states, steps)
  {
    && g < b < |steps| && steps[g].Do? && steps[g].i == j && steps[g].a.Receive? && Enabled(states[g], steps[g])
    && (var m := steps[g].a.msg; m.VoteRequest? && m.term == term && m.candidateId == i)
    && MayVote(states[g].nodes[j], term, i)
    && steps[b].Do? && steps[b].i == i && steps[b].a.Receive? && steps[b].a.from == j
    && Packet(j, i, steps[b].a.msg) in Act(states[g].nodes[j], steps[g].a).sent
  }

  lemma {:induction false} HeardAnswer(steps: seq<Step>, a: nat, k: nat, i: int, term: int, b: nat)
    requires a < b < k <= |steps| && steps[b].Do? && steps[b].i == i
    requires steps[b].a.Receive? && steps[b].a.msg == VoteResponse(term, 1)
    ensures steps[b].a.from in Heard(steps, a, k, i, term)
    decreases k
  {
    if b < k - 1 {
      HeardAnswer(steps, a, k - 1, i, term, b);
    }
  }

  lemma AnswerIsVote(states: seq<Cluster>, steps: seq<Step>, i: int, term: int, j: int, g: nat, b: nat)
    requires IsRun(states, steps) && AnswerArrives(states, steps, i, term, j, g, b)
    ensures steps[b].a.msg == VoteResponse(term, 1)
  {
    VoteGrantedIff(states[g].nodes[j], steps[g].a.msg);
  }

  /** In every run, whatever else happens in between: if node i asks for votes in step a, is then left alone until state k,
      and other nodes that make a majority with it are free to vote when its request reaches them and their answers
      reach it by then, node i leads the term in state k. */
  lemma MajorityElects(states: seq<Cluster>, steps: seq<Step>, a: nat, k: nat, i: int, term: int,
                       voters: set<int>, asked: map<int, nat>, answered: map<int, nat>)
    requires IsRun(states, steps) && a < k <= |steps| && AsksAt(states, steps, a, i, term)
    requires Undisturbed(states, a, k, i, term)
    requires voters != {} && 2 * (|voters| + 1) > |states[a].nodes|
    requires forall j :: j in voters ==>
               && j in asked && j in answered && a < answered[j] < k
               && AnswerArrives(states, steps, i, term, j, asked[j], answered[j])
    ensures states[k].nodes[i].role.Leader? && states[k].nodes[i].term == term
  {
    hide Act, ShapeInv, Heard, AnswerArrives, Next, Enabled, Init;
    var heard := Heard(steps, a, k, i, term);
    StandsAlways(states, steps, a, k, i, term);
    forall j | j in voters ensures j in heard {
      AnswerIsVote(states, steps, i, term, j, asked[j], answered[j]);
      AnswerFrom(states, steps, i, term, j, asked[j], answered[j]);
      HeardAnswer(steps, a, k, i, term, answered[j]);
    }
    SubsetSize(voters, heard);
    SameTotal(states, steps, a, k, i);
  }

  lemma AnswerFrom(states: seq<Cluster>, steps: seq<Step>, i: int, term: int, j: int, g: nat, b: nat)
    requires IsRun(states, steps) && AnswerArrives(states, steps, i, term, j, g, b)
    ensures b < |steps| && steps[b].Do? && steps[b].i == i && steps[b].a.Receive? && steps[b].a.from == j
  {
  }

  lemma SameTotal(states: seq<Cluster>, steps: seq<Step>, a: nat, k: nat, i: int)
    requires IsRun(states, steps) && a <= k <= |steps| && 0 <= i < |states[k].nodes|
    ensures states[k].nodes[i].total == |states[k].nodes| == |states[a].nodes|
  {
    LogShape(states, steps, k);
    assert NodeShape(states[k].nodes[i], i, |states[k].nodes|);
    SameNumber(states, steps, a, k);
  }

  lemma {:induction false} SameNumber(states: seq<Cluster>, steps: seq<Step>, a: nat, k: nat)
    requires IsRun(states, steps) && a <= k <= |steps|
    ensures |states[k].nodes| == |states[a].nodes|
    decreases k
  {
    if a < k {
      SameNumber(states, steps, a, k - 1);
      RunStep(states, steps, k - 1);
    }
  }

  /** A node alone never leads: only an answer can make it leader, and there is nobody to answer. */
  lemma {:induction false} AloneNeverLeads(states: seq<Cluster>, steps: seq<Step>, k: nat)
    requires IsRun(states, steps) && k <= |steps| && |states[0].nodes| == 1
    ensures |states[k].nodes| == 1 && !states[k].nodes[0].role.Leader?
  {
    hide ShapeInv, ElectionInv;
    SameNumber(states, steps, 0, k);
    if k > 0 {
      AloneNeverLeads(states, steps, k - 1);
      ElectionReachable(states, steps, k - 1);
      RunStep(states, steps, k - 1);
      AloneStep(states[k - 1], steps[k - 1], states[k]);
    }
  }

  lemma AloneStep(c: Cluster, s: Step, c': Cluster)
    requires ShapeInv(c) && ElectionInv(c) && Enabled(c, s) && c' == Next(c, s)
    requires |c.nodes| == 1 && !c.nodes[0].role.Leader?
    ensures !c'.nodes[0].role.Leader?
  {
    if c'.nodes[0].role.Leader? {
      hide ElectionInv;
      WinIsNew(c, s, 0);
      Received(c, 0, s.a);
      NoPackets(c);
    }
  }

  lemma NoPackets(c: Cluster)
    requires ShapeInv(c) && |c.nodes| == 1
    ensures forall p :: p !in c.net
  {
    assert forall p :: p in c.net ==> PacketShape(p, 1);
  }
}
