/** Runs of three nodes, played step by step: what one step does to the nodes, and which packets are then in flight. */
module Scenes {
  import opened Types
  import opened NodeSteps
  import opened Clusters
  import opened LogMatching

  const ZERO := Node(0, 3, Candidate, 0, NOBODY, NOBODY, 0, 0, [SENTINEL], 0,
                     map[1 := 1, 2 := 1], map[1 := 0, 2 := 0], map[], [], [], [])
  const ONE := Node(1, 3, Candidate, 0, NOBODY, NOBODY, 0, 0, [SENTINEL], 0,
                    map[0 := 1, 2 := 1], map[0 := 0, 2 := 0], map[], [], [], [])
  const TWO := Node(2, 3, Candidate, 0, NOBODY, NOBODY, 0, 0, [SENTINEL], 0,
                    map[0 := 1, 1 := 1], map[0 := 0, 1 := 0], map[], [], [], [])

  const START := Cluster([ZERO, ONE, TWO], multiset{}, History({}, {}, {}, {}, map[]))

  lemma FreshNode(id: int, a: int, b: int, n: Node)
    requires Others(3, id) == {a, b}
    requires n == Node(id, 3, Candidate, 0, NOBODY, NOBODY, 0, 0, [SENTINEL], 0,
                       map[a := 1, b := 1], map[a := 0, b := 0], map[], [], [], [])
    ensures n == InitialNode(id, 3, 0)
  {
    hide Others;
    assert n.nextIndex == map i | i in Others(3, id) :: 1;
    assert n.matched == map i | i in Others(3, id) :: 0;
  }

  lemma FreshNodes()
    ensures ZERO == InitialNode(0, 3, 0) && ONE == InitialNode(1, 3, 0) && TWO == InitialNode(2, 3, 0)
  {
    hide InitialNode;
    assert Others(3, 0) == {1, 2} && Others(3, 1) == {0, 2} && Others(3, 2) == {0, 1};
    FreshNode(0, 1, 2, ZERO);
    FreshNode(1, 0, 2, ONE);
    FreshNode(2, 0, 1, TWO);
  }

  lemma StartIsInitial()
    ensures Init(START)
  {
    FreshNodes();
    hide InitialNode;
    var nodes := START.nodes;
    assert nodes[0] == InitialNode(0, 3, nodes[0].votes);
    assert nodes[1] == InitialNode(1, 3, nodes[1].votes);
    assert nodes[2] == InitialNode(2, 3, nodes[2].votes);
  }

  /** What is on the way on each connection, a (sender, receiver) pair, in the order sent. */
  type Wires = map<(int, int), seq<Message>>

  function On(w: Wires, src: int, dst: int): seq<Message> {
    if (src, dst) in w then w[(src, dst)] else []
  }

  /** One connection over a step: what the handler sends on it is put at its end or lost, and a handler is given the
      message at its front. */
  ghost predicate Conveys(s: Step, sent: multiset<Packet>, src: int, dst: int, q: seq<Message>, q': seq<Message>)
    requires s.Do?
  {
    if s.a.Receive? && src == s.a.from && dst == s.i then q != [] && q[0] == s.a.msg && q' == q[1..]
    else q' == q || (|q'| == |q| + 1 && q'[..|q|] == q && src == s.i && Packet(src, dst, q'[|q|]) in sent)
  }

  ghost predicate Orderly(c: Cluster, s: Step, w: Wires, w': Wires) {
    && s.Do? && Enabled(c, s)
    && forall src, dst :: Conveys(s, Act(c.nodes[s.i], s.a).sent, src, dst, On(w, src, dst), On(w', src, dst))
  }

  /** A run, the steps that make it, and the connections in each of its states. */
  datatype Run = Run(states: seq<Cluster>, steps: seq<Step>, wires: seq<Wires>)

  /** The steps make a run, and every connection delivers what it does not lose in the order sent. */
  ghost predicate Played(r: Run) {
    && IsRun(r.states, r.steps)
    && |r.wires| == |r.states| && r.wires[0] == map[]
    && forall k :: 0 <= k < |r.steps| ==> Orderly(r.states[k], r.steps[k], r.wires[k], r.wires[k + 1])
  }

  /** No leader of the run ever takes over a higher term. */
  ghost predicate Calm(r: Run)
    requires Played(r)
  {
    forall k :: 0 <= k < |r.steps| ==> !StepRaises(r.states[k], r.steps[k])
  }

  function Now(r: Run): Cluster
    requires |r.states| > 0
  {
    r.states[|r.states| - 1]
  }

  function Wire(r: Run, src: int, dst: int): seq<Message>
    requires |r.wires| > 0
  {
    On(r.wires[|r.wires| - 1], src, dst)
  }

  /** The run so far, with everything on a connection in flight. */
  ghost predicate Running(r: Run) {
    && Played(r) && |r.states| == |r.wires| > 0
    && forall src, dst, m :: m in Wire(r, src, dst) ==> Packet(src, dst, m) in Now(r).net
  }

  lemma Begin() returns (r: Run)
    ensures Running(r) && Calm(r) && |r.states| == |r.wires| > 0 && Now(r) == START && r.steps == []
    ensures forall src, dst :: Wire(r, src, dst) == []
  {
    StartIsInitial();
    r := Run([START], [], [map[]]);
  }

  /** The connections after node i has handled `a` and put `put` on its own. */
  function WiresAfter(w: Wires, i: int, a: Action, put: map<int, Message>): Wires {
    map c | c in w.Keys + (set d | d in put :: (i, d)) ::
      (if a.Receive? && c == (a.from, i) && On(w, c.0, c.1) != [] then On(w, c.0, c.1)[1..] else On(w, c.0, c.1))
      + if c.0 == i && c.1 in put then [put[c.1]] else []
  }

  lemma WiresAfterIs(w: Wires, i: int, a: Action, put: map<int, Message>, src: int, dst: int)
    requires a.Receive? ==> a.from != i && On(w, a.from, i) != []
    ensures On(WiresAfter(w, i, a, put), src, dst) ==
            if a.Receive? && src == a.from && dst == i then On(w, src, dst)[1..]
            else if src == i && dst in put then On(w, src, dst) + [put[dst]]
            else On(w, src, dst)
  {
    var keys := set d | d in put :: (i, d);
    assert src == i && dst in put ==> (i, dst) in keys;
  }

  /** What handling `a` does to the cluster: node i becomes `after`, the rest stays. */
  lemma PlayOne(c: Cluster, i: int, a: Action, after: Node) returns (c': Cluster)
    requires 0 <= i < |c.nodes| && (a.VoteCallback? ==> c.nodes[i].voteTimers > 0)
    requires a.Receive? ==> Packet(a.from, i, a.msg) in c.net
    requires Act(c.nodes[i], a).node == after
    ensures Enabled(c, Do(i, a)) && c' == Next(c, Do(i, a))
    ensures c'.nodes == c.nodes[i := after]
    ensures forall p :: p in Act(c.nodes[i], a).sent || (p in c.net && (a.Receive? ==> p != Packet(a.from, i, a.msg))) ==>
                          p in c'.net
    ensures c'.hist.wins == c.hist.wins + if Wins(c.nodes[i], after) then {(c.nodes[i].id, after.term)} else {}
  {
    hide Act, Given, Tallied;
    c' := Next(c, Do(i, a));
  }

  /** The step keeps the order of every connection. */
  lemma PlayOrderly(c: Cluster, i: int, a: Action, w: Wires, put: map<int, Message>)
    requires Enabled(c, Do(i, a))
    requires a.Receive? ==> a.from != i && On(w, a.from, i) != [] && On(w, a.from, i)[0] == a.msg
    requires forall d :: d in put ==> Packet(i, d, put[d]) in Act(c.nodes[i], a).sent
    ensures Orderly(c, Do(i, a), w, WiresAfter(w, i, a, put))
  {
    hide Act, WiresAfter, On;
    forall src, dst
      ensures Conveys(Do(i, a), Act(c.nodes[i], a).sent, src, dst, On(w, src, dst), On(WiresAfter(w, i, a, put), src, dst))
    {
      WiresAfterIs(w, i, a, put, src, dst);
    }
  }

  /** Next, node i handles `a`, the front of its connection if it is a message, and becomes `after`; of what it sends,
      `put` is put on its connections and the rest is lost. */
  lemma Play(r: Run, i: int, a: Action, after: Node, put: map<int, Message>) returns (r': Run)
    requires Running(r) && 0 <= i < |Now(r).nodes|
    requires a.VoteCallback? ==> Now(r).nodes[i].voteTimers > 0
    requires a.Receive? ==> a.from != i && Wire(r, a.from, i) != [] && Wire(r, a.from, i)[0] == a.msg
                            && a.msg !in Wire(r, a.from, i)[1..]
    requires Act(Now(r).nodes[i], a).node == after
    requires forall d :: d in put ==> Packet(i, d, put[d]) in Act(Now(r).nodes[i], a).sent
    ensures Running(r') && |r'.states| == |r'.wires| > 0
    ensures r'.steps == r.steps + [Do(i, a)] && Now(r').nodes == Now(r).nodes[i := after]
    ensures forall src, dst :: Wire(r', src, dst) ==
                               if a.Receive? && src == a.from && dst == i then Wire(r, src, dst)[1..]
                               else if src == i && dst in put then Wire(r, src, dst) + [put[dst]]
                               else Wire(r, src, dst)
    ensures Now(r').hist.wins ==
            Now(r).hist.wins + if Wins(Now(r).nodes[i], after) then {(Now(r).nodes[i].id, after.term)} else {}
    ensures Calm(r) && (a.Receive? ==> !RaisesLeader(Now(r).nodes[i], a.msg)) ==> Calm(r')
  {
    hide Act, Wins, RaisesLeader, Init, Enabled, Next, Orderly, WiresAfter, On;
    assert a.Receive? ==> a.msg in Wire(r, a.from, i);
    var c' := PlayOne(Now(r), i, a, after);
    var w := r.wires[|r.wires| - 1];
    PlayOrderly(Now(r), i, a, w, put);
    r' := Run(r.states + [c'], r.steps + [Do(i, a)], r.wires + [WiresAfter(w, i, a, put)]);
    forall src, dst
      ensures Wire(r', src, dst) ==
              if a.Receive? && src == a.from && dst == i then Wire(r, src, dst)[1..]
              else if src == i && dst in put then Wire(r, src, dst) + [put[dst]]
              else Wire(r, src, dst)
    {
      WiresAfterIs(w, i, a, put, src, dst);
    }
    forall k | 0 <= k < |r'.steps|
      ensures Enabled(r'.states[k], r'.steps[k]) && r'.states[k + 1] == Next(r'.states[k], r'.steps[k])
      ensures Orderly(r'.states[k], r'.steps[k], r'.wires[k], r'.wires[k + 1])
    {
      if k < |r.steps| {
        RunStep(r.states, r.steps, k);
        assert Orderly(r.states[k], r.steps[k], r.wires[k], r.wires[k + 1]);
      }
    }
    if Calm(r) && (a.Receive? ==> !RaisesLeader(Now(r).nodes[i], a.msg)) {
      forall k | 0 <= k < |r'.steps| ensures !StepRaises(r'.states[k], r'.steps[k]) {
        assert k < |r.steps| ==> !StepRaises(r.states[k], r.steps[k]);
      }
    }
  }

  // ---- the handlers that send to several nodes ----

  lemma BroadcastReaches(id: int, msg: Message)
    requires 0 <= id < 3
    ensures forall j :: 0 <= j < 3 && j != id ==> Packet(id, j, msg) in Broadcast(id, 3, msg)
  {
    forall j | 0 <= j < 3 && j != id ensures Packet(id, j, msg) in Broadcast(id, 3, msg) {
      assert j in Others(3, id);
    }
  }

  lemma CallbackEffect(n: Node)
    requires 0 <= n.id < 3 && n.total == 3 && n.voteTimers > 0 && n.votedFor == NOBODY
    ensures Act(n, VoteCallback).node == n.(voteTimers := n.voteTimers - 1, votedFor := n.id, votes := n.votes + 1)
    ensures forall j :: 0 <= j < 3 && j != n.id ==>
              Packet(n.id, j, VoteRequest(n.term, n.id, Last(n.log).index, Last(n.log).term)) in Act(n, VoteCallback).sent
  {
    hide Broadcast;
    BroadcastReaches(n.id, VoteRequest(n.term, n.id, Last(n.log).index, Last(n.log).term));
  }

  lemma BumpIs(before: map<int, int>, who: set<int>, after: map<int, int>)
    requires after.Keys == before.Keys + who
    requires forall f :: f in after ==> after[f] == Get(before, f) + if f in who then 1 else 0
    ensures BumpAll(before, who) == after
  {
  }

  lemma BeatEffect(n: Node, pending: map<int, int>)
    requires 0 <= n.id < 3 && n.total == 3 && n.role.Leader?
    requires pending.Keys == Others(3, n.id) && n.pending.Keys <= pending.Keys
    requires forall j :: j in pending ==> pending[j] == Get(n.pending, j) + 1
    ensures Act(n, HeartbeatTick).node == n.(pending := pending)
    ensures forall j :: 0 <= j < 3 && j != n.id ==> Packet(n.id, j, Heartbeat(n)) in Act(n, HeartbeatTick).sent
  {
    hide Broadcast, Heartbeat, Others, BumpAll;
    BroadcastReaches(n.id, Heartbeat(n));
    BumpIs(n.pending, Others(3, n.id), pending);
  }

  /** A put that offers its entry, or an earlier one, to the followers in `who`. */
  lemma PutEffect(n: Node, id: int, text: string, who: set<int>, pending: map<int, int>)
    requires n.role.Leader?
    requires forall f :: f in who <==> f in n.nextIndex && 1 <= n.nextIndex[f] <= |n.log| && Get(n.pending, f) < 2
    requires pending.Keys == n.pending.Keys + who
    requires forall f :: f in pending ==> pending[f] == Get(n.pending, f) + if f in who then 1 else 0
    ensures var m := n.(log := n.log + [Entry(|n.log|, n.term, id, ADD, text)]);
            && Act(n, ClientPut(id, text)).node == m.(pending := pending)
            && (forall f :: f in who ==>
                  Sendable(m, f) && Packet(n.id, f, EntryRequest(m, f)) in Act(n, ClientPut(id, text)).sent)
  {
    var m := n.(log := n.log + [Entry(|n.log|, n.term, id, ADD, text)]);
    assert Ready(m) == who;
    BumpIs(n.pending, who, pending);
  }

  /** A success with nothing to commit, after which the next entry goes out. */
  lemma AnswerEffect(n: Node, from: int, m: Message, matched: map<int, int>, nextIndex: map<int, int>)
    requires m.AppendResponse? && m.success && m.lastSynced <= n.commit
    requires Get(n.pending, m.followerId) == 2 && 0 <= m.lastSynced < |n.log| - 1
    requires matched == n.matched[m.followerId := m.lastSynced]
    requires nextIndex == n.nextIndex[m.followerId := m.lastSynced + 1]
    ensures var next := n.(matched := matched, nextIndex := nextIndex);
            && Act(n, Receive(from, m)).node == next
            && Sendable(next, m.followerId)
            && Act(n, Receive(from, m)).sent == multiset{Packet(n.id, m.followerId, EntryRequest(next, m.followerId))}
  {
    var f, next := m.followerId, n.(matched := matched, nextIndex := nextIndex);
    var d := next.(pending := n.pending[f := 1]);
    assert Digest(n, m) == d;
    assert d.nextIndex[f := Get(d.nextIndex, f)] == nextIndex;
    assert d.pending[f := 2] == n.pending;
    hide Digest;
  }

  /** A success that lets the leader commit one more entry, after which the next entry goes out. */
  lemma CommitEffect(n: Node, from: int, m: Message, after: Node)
    requires m.AppendResponse? && m.success && n.total == 3 && 0 <= n.commit < m.lastSynced < |n.log|
    requires Get(n.pending, m.followerId) == 2
    requires after == CommitTo(n, m.lastSynced).(matched := n.matched[m.followerId := m.lastSynced],
                                                 nextIndex := n.nextIndex[m.followerId := m.lastSynced + 1],
                                                 pending := after.pending)
    requires after.pending == n.pending[m.followerId := if m.lastSynced + 1 < |n.log| then 2 else 1]
    ensures Act(n, Receive(from, m)).node == after
    ensures m.lastSynced + 1 < |n.log| ==>
              Sendable(after, m.followerId)
              && Packet(n.id, m.followerId, EntryRequest(after, m.followerId)) in Act(n, Receive(from, m)).sent
  {
    hide ApplyRange;
    var f := m.followerId;
    var d := after.(pending := n.pending[f := 1]);
    assert f in SyncedWith(after.matched, m.lastSynced);
    assert Digest(n, m) == d;
    assert d.nextIndex[f := Get(d.nextIndex, f)] == after.nextIndex;
    assert d.pending[f := 2] == n.pending;
    hide Digest, CommitTo;
  }

  // ---- node 0 is elected in term 1 by node 1 ----

  function Ask(candidate: int, term: int): Message {
    VoteRequest(term, candidate, 0, 0)
  }

  const TICKED := ZERO.(term := 1, voteTimers := 1)
  const ASKING := ZERO.(term := 1, votedFor := 0, votes := 1)
  const LEADER := ZERO.(role := Leader, term := 1, votedFor := 0, votes := 2)
  const VOTER := ONE.(term := 1, votedFor := 0)

  lemma AskFacts()
    ensures Act(ZERO, VoteTick(false)).node == TICKED
    ensures Act(TICKED, VoteCallback).node == ASKING
    ensures Packet(0, 1, Ask(0, 1)) in Act(TICKED, VoteCallback).sent
  {
    CallbackEffect(TICKED);
  }

  lemma VoteFacts()
    ensures Act(ONE, Receive(0, Ask(0, 1))) == Reply(VOTER, 0, VoteResponse(1, 1))
    ensures Act(ASKING, Receive(1, VoteResponse(1, 1))).node == LEADER
  {
  }

  lemma Elect() returns (r: Run)
    ensures Running(r) && Calm(r) && |r.states| == |r.wires| > 0 && |r.steps| == 4
    ensures Now(r).nodes == [LEADER, VOTER, TWO] && Now(r).hist.wins == {(0, 1)}
    ensures forall src, dst :: Wire(r, src, dst) == []
  {
    hide Act, Running, Played, Calm, Now, Wire;
    AskFacts();
    VoteFacts();
    r := Begin();
    r := Play(r, 0, VoteTick(false), TICKED, map[]);
    r := Play(r, 0, VoteCallback, ASKING, map[1 := Ask(0, 1)]);
    r := Play(r, 1, Receive(0, Ask(0, 1)), VOTER, map[0 := VoteResponse(1, 1)]);
    r := Play(r, 0, Receive(1, VoteResponse(1, 1)), LEADER, map[]);
  }

  // ---- node 1 stands in term 2 and is elected by node 2 ----

  const STANDING := VOTER.(term := 2, votedFor := NOBODY, voteTimers := 1)
  const ASKING_AGAIN := VOTER.(term := 2, votedFor := 1, votes := 1)
  const SECOND := VOTER.(role := Leader, term := 2, votedFor := 1, votes := 2)
  const GRANTED := TWO.(term := 2, votedFor := 1)

  lemma StandFacts()
    ensures Act(VOTER, VoteTick(false)).node == STANDING
    ensures Act(STANDING, VoteCallback).node == ASKING_AGAIN
    ensures Packet(1, 0, Ask(1, 2)) in Act(STANDING, VoteCallback).sent
    ensures Packet(1, 2, Ask(1, 2)) in Act(STANDING, VoteCallback).sent
  {
    CallbackEffect(STANDING);
  }

  lemma SecondFacts()
    ensures Act(TWO, Receive(1, Ask(1, 2))) == Reply(GRANTED, 1, VoteResponse(2, 1))
    ensures Act(ASKING_AGAIN, Receive(2, VoteResponse(2, 1))).node == SECOND
  {
  }
}
