/** Election safety: one vote per voter and term, one request per candidate and term,
    at most one winner per term. No condition on the run beyond no node restarting. */
module Election {
  import opened Types
  import opened Logs
  import opened NodeSteps
  import opened Clusters
  import opened Shape

  /** The votes of `term` that `candidate` has counted. */
  function Tally(counted: set<Vote>, candidate: int, term: int): set<Vote> {
    set v | v in counted && v.candidate == candidate && v.term == term
  }

  /** A broadcast request: while its term lasts, the candidate's vote is its own. */
  ghost predicate RequestOk(c: Cluster, r: (int, int)) {
    && 0 <= r.0 < |c.nodes|
    && r.1 <= c.nodes[r.0].term
    && (r.1 == c.nodes[r.0].term ==> c.nodes[r.0].votedFor == r.0)
  }

  /** A vote given: while its term lasts, the voter remembers the candidate. */
  ghost predicate VoteOk(c: Cluster, v: Vote) {
    && 0 <= v.voter < |c.nodes|
    && (v.candidate, v.term) in c.hist.requests
    && v.term <= c.nodes[v.voter].term
    && (v.term == c.nodes[v.voter].term ==> c.nodes[v.voter].votedFor == v.candidate)
  }

  ghost predicate OneVotePerTerm(votes: set<Vote>) {
    forall v, w :: v in votes && w in votes && v.voter == w.voter && v.term == w.term ==> v == w
  }

  /** A request in flight has not been answered with a vote. */
  ghost predicate RequestPacketOk(c: Cluster, p: Packet)
    requires p.msg.VoteRequest?
  {
    && (p.src, p.msg.term) in c.hist.requests
    && Vote(p.dst, p.src, p.msg.term) !in c.hist.votes
    && c.net[p] == 1
  }

  ghost predicate SameRequest(p: Packet, q: Packet) {
    && p.msg.VoteRequest? && q.msg.VoteRequest?
    && p.src == q.src && p.dst == q.dst && p.msg.term == q.msg.term
  }

  ghost predicate OneRequestPacket(net: multiset<Packet>) {
    forall p, q :: p in net && q in net && SameRequest(p, q) ==> p == q
  }

  /** A granted vote in flight has been given and not been counted. */
  ghost predicate ResponsePacketOk(c: Cluster, p: Packet)
    requires p.msg.VoteResponse?
  {
    && (p.msg.granted == 0 || p.msg.granted == 1)
    && (p.msg.granted == 1 ==>
          && Vote(p.src, p.dst, p.msg.term) in c.hist.votes
          && Vote(p.src, p.dst, p.msg.term) !in c.hist.counted
          && c.net[p] == 1)
  }

  /** A candidate that has asked has counted exactly the votes tallied; one about to ask has none. */
  ghost predicate CandidateOk(c: Cluster, i: int)
    requires 0 <= i < |c.nodes|
  {
    var n := c.nodes[i];
    n.role.Candidate? ==>
      && ((i, n.term) in c.hist.requests ==> n.votes == |Tally(c.hist.counted, i, n.term)|)
      && (n.votedFor == NOBODY && n.voteTimers > 0 ==> n.votes == 0)
  }

  /** A win was carried by a majority, and its node still leads while the term lasts. */
  ghost predicate WinOk(c: Cluster, w: (int, int)) {
    && 0 <= w.0 < |c.nodes|
    && |Tally(c.hist.counted, w.0, w.1)| > |c.nodes| / 2
    && w.1 <= c.nodes[w.0].term
    && (w.1 == c.nodes[w.0].term ==> c.nodes[w.0].role.Leader?)
  }

  ghost predicate VotesInv(c: Cluster) {
    && (forall r :: r in c.hist.requests ==> RequestOk(c, r))
    && (forall v :: v in c.hist.votes ==> VoteOk(c, v))
    && OneVotePerTerm(c.hist.votes)
    && c.hist.counted <= c.hist.votes
  }

  ghost predicate PacketsInv(c: Cluster) {
    && (forall p :: p in c.net && p.msg.VoteRequest? ==> RequestPacketOk(c, p))
    && OneRequestPacket(c.net)
    && (forall p :: p in c.net && p.msg.VoteResponse? ==> ResponsePacketOk(c, p))
  }

  ghost predicate CountInv(c: Cluster) {
    && (forall i :: 0 <= i < |c.nodes| ==> CandidateOk(c, i))
    && (forall w :: w in c.hist.wins ==> WinOk(c, w))
  }

  ghost predicate ElectionInv(c: Cluster) {
    VotesInv(c) && PacketsInv(c) && CountInv(c)
  }

  // ---- steps that give, count and win nothing ----

  /** Node `n` became `m` without a vote or a win: what it said in its term still stands. */
  ghost predicate CalmNode(n: Node, m: Node) {
    && m.term >= n.term
    && (m.term == n.term ==>
          && m.votedFor == n.votedFor
          && (m.role.Candidate? ==> n.role.Candidate? && m.votes == n.votes)
          && (n.role.Leader? ==> m.role.Leader?))
    && (m.role.Candidate? && m.votedFor == NOBODY && m.voteTimers > 0 ==> m.votes == 0)
  }

  /** The step gives, counts and wins nothing; vote packets only disappear, or are refusals. */
  ghost predicate Calm(c: Cluster, c': Cluster, i: int) {
    && 0 <= i < |c.nodes| == |c'.nodes|
    && (forall j :: 0 <= j < |c.nodes| && j != i ==> c'.nodes[j] == c.nodes[j])
    && CalmNode(c.nodes[i], c'.nodes[i])
    && c'.hist.requests == c.hist.requests && c'.hist.votes == c.hist.votes
    && c'.hist.counted == c.hist.counted && c'.hist.wins == c.hist.wins
    && (forall p :: p in c'.net && p.msg.VoteRequest? ==> c'.net[p] <= c.net[p])
    && (forall p :: p in c'.net && p.msg.VoteResponse? ==> p.msg.granted == 0 || c'.net[p] <= c.net[p])
  }

  lemma CalmVotes(c: Cluster, c': Cluster, i: int)
    requires VotesInv(c) && Calm(c, c', i)
    ensures VotesInv(c')
  {
    forall r | r in c'.hist.requests ensures RequestOk(c', r) {
      assert RequestOk(c, r);
    }
    forall v | v in c'.hist.votes ensures VoteOk(c', v) {
      assert VoteOk(c, v);
    }
  }

  lemma CalmPackets(c: Cluster, c': Cluster, i: int)
    requires PacketsInv(c) && Calm(c, c', i)
    ensures PacketsInv(c')
  {
    forall p | p in c'.net && p.msg.VoteRequest? ensures RequestPacketOk(c', p) {
      assert p in c.net && RequestPacketOk(c, p);
    }
    forall p, q | p in c'.net && q in c'.net && SameRequest(p, q) ensures p == q {
      assert p in c.net && q in c.net;
    }
    forall p | p in c'.net && p.msg.VoteResponse? ensures ResponsePacketOk(c', p) {
      if p.msg.granted != 0 {
        assert p in c.net && ResponsePacketOk(c, p);
      }
    }
  }

  lemma CalmCount(c: Cluster, c': Cluster, i: int)
    requires VotesInv(c) && CountInv(c) && Calm(c, c', i)
    ensures CountInv(c')
  {
    forall j | 0 <= j < |c'.nodes| ensures CandidateOk(c', j) {
      assert CandidateOk(c, j);
      if (j, c'.nodes[j].term) in c.hist.requests {
        assert RequestOk(c, (j, c'.nodes[j].term));
      }
    }
    forall w | w in c'.hist.wins ensures WinOk(c', w) {
      assert WinOk(c, w);
    }
  }

  lemma CalmNext(c: Cluster, c': Cluster, i: int)
    requires ElectionInv(c) && Calm(c, c', i)
    ensures ElectionInv(c')
  {
    CalmVotes(c, c', i);
    CalmPackets(c, c', i);
    CalmCount(c, c', i);
  }

  lemma PassiveOutcome(c: Cluster, i: int, used: multiset<Packet>, o: Outcome, h: History)
    requires CountInv(c) && 0 <= i < |c.nodes| && Passive(c.nodes[i], o)
    requires h.requests == c.hist.requests && h.votes == c.hist.votes
    requires h.counted == c.hist.counted && h.wins == c.hist.wins
    ensures Calm(c, Cluster(c.nodes[i := o.node], c.net - used + o.sent, h), i)
  {
    assert CandidateOk(c, i);
  }

  lemma PassiveHistory(h: History, n: Node, a: Action, o: Outcome)
    requires IsPassive(a) && Passive(n, o)
    ensures var g := Observe(h, n, a, o.node);
            && g.requests == h.requests && g.votes == h.votes
            && g.counted == h.counted && g.wins == h.wins
  {
  }

  lemma PassiveIsCalm(c: Cluster, i: int, a: Action)
    requires CountInv(c) && Enabled(c, Do(i, a)) && IsPassive(a)
    ensures Calm(c, Next(c, Do(i, a)), i)
  {
    var o := Act(c.nodes[i], a);
    PassiveActions(c.nodes[i], a);
    PassiveHistory(c.hist, c.nodes[i], a, o);
    PassiveOutcome(c, i, Used(i, a), o, Observe(c.hist, c.nodes[i], a, o.node));
  }

  lemma TickIsCalm(c: Cluster, i: int, expired: bool)
    requires CountInv(c) && Enabled(c, Do(i, VoteTick(expired)))
    ensures Calm(c, Next(c, Do(i, VoteTick(expired))), i)
  {
    assert CandidateOk(c, i);
  }

  /** A callback that finds the vote gone does nothing. */
  lemma LateCallbackIsCalm(c: Cluster, i: int)
    requires CountInv(c) && Enabled(c, Do(i, VoteCallback)) && c.nodes[i].votedFor != NOBODY
    ensures Calm(c, Next(c, Do(i, VoteCallback)), i)
  {
    assert CandidateOk(c, i);
  }

  /** A vote request that is refused, or that reaches a leader, which may still raise its term. */
  lemma UngrantedIsCalm(c: Cluster, i: int, a: Action)
    requires CountInv(c) && Enabled(c, Do(i, a)) && a.Receive? && a.msg.VoteRequest?
    requires !Grants(c.nodes[i], a.msg)
    ensures Calm(c, Next(c, Do(i, a)), i)
  {
    assert CandidateOk(c, i);
  }

  /** A vote response that is not looked at. */
  lemma IgnoredIsCalm(c: Cluster, i: int, a: Action)
    requires CountInv(c) && Enabled(c, Do(i, a)) && a.Receive? && a.msg.VoteResponse?
    requires !Considers(c.nodes[i], a.msg)
    ensures Calm(c, Next(c, Do(i, a)), i)
  {
    assert CandidateOk(c, i);
  }

  lemma DropIsCalm(c: Cluster, p: Packet)
    requires ShapeInv(c) && CountInv(c) && p in c.net
    ensures Calm(c, Next(c, Drop(p)), 0)
  {
    assert CandidateOk(c, 0);
  }

  // ---- the three steps that matter ----

  /** A candidate asks: it gives itself its vote, counts it, and broadcasts its request `m`. */
  ghost predicate Asked(c: Cluster, c': Cluster, i: int, m: Message) {
    && 0 <= i < |c.nodes|
    && var n := c.nodes[i];
    && n.votedFor == NOBODY && n.voteTimers > 0
    && (i, n.term) !in c.hist.requests
    && c'.nodes == c.nodes[i := n.(voteTimers := n.voteTimers - 1, votedFor := i, votes := n.votes + 1)]
    && c'.hist.requests == c.hist.requests + {(i, n.term)}
    && c'.hist.votes == c.hist.votes + {Vote(i, i, n.term)}
    && c'.hist.counted == c.hist.counted + {Vote(i, i, n.term)}
    && c'.hist.wins == c.hist.wins
    && n.id == i && m.VoteRequest? && m.term == n.term && c'.net == c.net + Broadcast(n.id, n.total, m)
  }

  lemma AskIsAsked(c: Cluster, i: int, m: Message)
    requires 0 <= i < |c.nodes| && c.nodes[i].id == i && c.nodes[i].voteTimers > 0 && Asks(c.nodes[i], VoteCallback)
    requires (i, c.nodes[i].term) !in c.hist.requests
    requires m == VoteRequest(c.nodes[i].term, i, Last(c.nodes[i].log).index, Last(c.nodes[i].log).term)
    ensures Asked(c, Next(c, Do(i, VoteCallback)), i, m)
  {
  }

  lemma AskVotes(c: Cluster, c': Cluster, i: int, m: Message)
    requires VotesInv(c) && Asked(c, c', i, m)
    ensures VotesInv(c')
  {
    forall r | r in c'.hist.requests ensures RequestOk(c', r) {
      assert r in c.hist.requests ==> RequestOk(c, r);
    }
    forall v | v in c'.hist.votes ensures VoteOk(c', v) {
      if v in c.hist.votes { assert VoteOk(c, v) && RequestOk(c, (v.candidate, v.term)); }
    }
    forall v, w | v in c'.hist.votes && w in c'.hist.votes && v.voter == w.voter && v.term == w.term ensures v == w {
      assert v in c.hist.votes ==> VoteOk(c, v) && RequestOk(c, (v.candidate, v.term));
      assert w in c.hist.votes ==> VoteOk(c, w) && RequestOk(c, (w.candidate, w.term));
    }
  }

  lemma AskPackets(c: Cluster, c': Cluster, i: int, m: Message)
    requires VotesInv(c) && PacketsInv(c) && Asked(c, c', i, m)
    ensures PacketsInv(c')
  {
    var n := c.nodes[i];
    forall p | p in c'.net && p.msg.VoteRequest? ensures RequestPacketOk(c', p) {
      assert p in c.net ==> RequestPacketOk(c, p);
      assert Vote(p.dst, p.src, p.msg.term) in c.hist.votes ==> VoteOk(c, Vote(p.dst, p.src, p.msg.term));
    }
    forall p, q | p in c'.net && q in c'.net && SameRequest(p, q) ensures p == q {
      assert p in c.net ==> RequestPacketOk(c, p);
      assert q in c.net ==> RequestPacketOk(c, q);
    }
    forall p | p in c'.net && p.msg.VoteResponse? ensures ResponsePacketOk(c', p) {
      assert ResponsePacketOk(c, p);
      assert Vote(p.src, p.dst, p.msg.term) in c.hist.votes ==> VoteOk(c, Vote(p.src, p.dst, p.msg.term));
    }
  }

  lemma AskCount(c: Cluster, c': Cluster, i: int, m: Message)
    requires VotesInv(c) && CountInv(c) && Asked(c, c', i, m)
    ensures CountInv(c')
  {
    var n := c.nodes[i];
    forall j, t | (j, t) != (i, n.term) ensures Tally(c'.hist.counted, j, t) == Tally(c.hist.counted, j, t) {
    }
    forall v | v in c.hist.counted ensures (v.candidate, v.term) != (i, n.term) {
      assert VoteOk(c, v);
    }
    assert Tally(c'.hist.counted, i, n.term) == {Vote(i, i, n.term)};
    forall j | 0 <= j < |c'.nodes| ensures CandidateOk(c', j) {
      assert CandidateOk(c, j);
    }
    forall w | w in c'.hist.wins ensures WinOk(c', w) {
      assert WinOk(c, w);
      assert w != (i, n.term);
    }
  }

  lemma AskNext(c: Cluster, i: int)
    requires ShapeInv(c) && ElectionInv(c) && Enabled(c, Do(i, VoteCallback)) && Asks(c.nodes[i], VoteCallback)
    ensures ElectionInv(Next(c, Do(i, VoteCallback)))
  {
    var n, c' := c.nodes[i], Next(c, Do(i, VoteCallback));
    var m := VoteRequest(n.term, i, Last(n.log).index, Last(n.log).term);
    assert NodeShape(n, i, |c.nodes|);
    assert (i, n.term) in c.hist.requests ==> RequestOk(c, (i, n.term));
    AskIsAsked(c, i, m);
    AskVotes(c, c', i, m);
    AskPackets(c, c', i, m);
    AskCount(c, c', i, m);
  }

  /** Node `i` gives its vote to the sender of request packet `p`. */
  ghost predicate Granted(c: Cluster, c': Cluster, i: int, p: Packet) {
    && 0 <= i < |c.nodes| && p in c.net && p.dst == i && p.msg.VoteRequest?
    && 0 <= p.src < |c.nodes| && p.src != i
    && var n, v := c.nodes[i], Vote(i, p.src, p.msg.term);
    && !n.role.Leader? && p.msg.term >= n.term
    && (p.msg.term == n.term ==> n.votedFor == NOBODY || n.votedFor == p.src)
    && c'.nodes == c.nodes[i := n.(term := p.msg.term, votedFor := p.src,
                                   votes := if p.msg.term > n.term then 0 else n.votes)]
    && c'.hist.requests == c.hist.requests && c'.hist.counted == c.hist.counted && c'.hist.wins == c.hist.wins
    && c'.hist.votes == c.hist.votes + {v}
    && c'.net == c.net - multiset{p} + multiset{Packet(i, p.src, VoteResponse(p.msg.term, 1))}
  }

  lemma GrantIsGranted(c: Cluster, p: Packet)
    requires p in c.net && p.msg.VoteRequest? && 0 <= p.dst < |c.nodes| && 0 <= p.src < |c.nodes| && p.src != p.dst
    requires c.nodes[p.dst].id == p.dst && p.msg.candidateId == p.src && Grants(c.nodes[p.dst], p.msg)
    ensures Enabled(c, Do(p.dst, Receive(p.src, p.msg)))
    ensures Granted(c, Next(c, Do(p.dst, Receive(p.src, p.msg))), p.dst, p)
  {
  }

  lemma GrantVotes(c: Cluster, c': Cluster, i: int, p: Packet)
    requires VotesInv(c) && PacketsInv(c) && Granted(c, c', i, p)
    ensures VotesInv(c')
  {
    var given := Vote(i, p.src, p.msg.term);
    assert RequestPacketOk(c, p);
    forall r | r in c'.hist.requests ensures RequestOk(c', r) {
      assert RequestOk(c, r);
    }
    forall v | v in c'.hist.votes ensures VoteOk(c', v) {
      assert v in c.hist.votes ==> VoteOk(c, v);
    }
    forall v | v in c.hist.votes && v.voter == i && v.term == p.msg.term ensures v == given {
      assert VoteOk(c, v) && RequestOk(c, (v.candidate, v.term));
    }
  }

  lemma GrantPackets(c: Cluster, c': Cluster, i: int, p: Packet)
    requires VotesInv(c) && PacketsInv(c) && Granted(c, c', i, p)
    ensures PacketsInv(c')
  {
    var reply := Packet(i, p.src, VoteResponse(p.msg.term, 1));
    assert RequestPacketOk(c, p);
    forall q | q in c'.net && q.msg.VoteRequest? ensures RequestPacketOk(c', q) {
      assert q in c.net && RequestPacketOk(c, q);
      assert q != p && (SameRequest(q, p) ==> q == p);
    }
    forall q, r | q in c'.net && r in c'.net && SameRequest(q, r) ensures q == r {
      assert q in c.net && r in c.net;
    }
    forall q | q in c.net && q.msg.VoteResponse? ensures q != reply {
      assert ResponsePacketOk(c, q);
    }
    forall q | q in c'.net && q.msg.VoteResponse? ensures ResponsePacketOk(c', q) {
      assert q in c.net ==> ResponsePacketOk(c, q);
    }
  }

  lemma GrantCount(c: Cluster, c': Cluster, i: int, p: Packet)
    requires VotesInv(c) && CountInv(c) && Granted(c, c', i, p)
    ensures CountInv(c')
  {
    forall j | 0 <= j < |c'.nodes| ensures CandidateOk(c', j) {
      assert CandidateOk(c, j);
      assert (j, c'.nodes[j].term) in c.hist.requests ==> RequestOk(c, (j, c'.nodes[j].term));
    }
    forall w | w in c'.hist.wins ensures WinOk(c', w) {
      assert WinOk(c, w);
    }
  }

  lemma GrantNext(c: Cluster, p: Packet)
    requires ShapeInv(c) && ElectionInv(c) && p in c.net && p.msg.VoteRequest? && 0 <= p.dst < |c.nodes|
    requires Grants(c.nodes[p.dst], p.msg)
    ensures Enabled(c, Do(p.dst, Receive(p.src, p.msg)))
    ensures ElectionInv(Next(c, Do(p.dst, Receive(p.src, p.msg))))
  {
    assert PacketShape(p, |c.nodes|) && NodeShape(c.nodes[p.dst], p.dst, |c.nodes|);
    GrantIsGranted(c, p);
    var c' := Next(c, Do(p.dst, Receive(p.src, p.msg)));
    GrantVotes(c, c', p.dst, p);
    GrantPackets(c, c', p.dst, p);
    GrantCount(c, c', p.dst, p);
  }

  /** Candidate `i` counts the granted vote in packet `p`, and leads if that makes a majority. */
  ghost predicate Counted(c: Cluster, c': Cluster, i: int, p: Packet) {
    && 0 <= i < |c.nodes| && p in c.net && p.dst == i && p.msg.VoteResponse? && p.msg.granted == 1
    && var n, v := c.nodes[i], Vote(p.src, i, p.msg.term);
    && n.role.Candidate? && p.msg.term >= n.term
    && |c'.nodes| == |c.nodes|
    && (forall j :: 0 <= j < |c.nodes| && j != i ==> c'.nodes[j] == c.nodes[j])
    && var won := n.votes + 1 > |c.nodes| / 2;
    && c'.nodes[i] == n.(votes := n.votes + 1, role := if won then Leader else Candidate,
                         term := if won then p.msg.term else n.term)
    && c'.hist.requests == c.hist.requests && c'.hist.votes == c.hist.votes
    && c'.hist.counted == c.hist.counted + {v}
    && c'.hist.wins == c.hist.wins + (if won then {(i, p.msg.term)} else {})
    && c'.net == c.net - multiset{p}
  }

  lemma CountIsCounted(c: Cluster, p: Packet)
    requires p in c.net && p.msg.VoteResponse? && p.msg.granted == 1 && 0 <= p.dst < |c.nodes|
    requires c.nodes[p.dst].id == p.dst && c.nodes[p.dst].total == |c.nodes| && Considers(c.nodes[p.dst], p.msg)
    ensures Enabled(c, Do(p.dst, Receive(p.src, p.msg)))
    ensures Counted(c, Next(c, Do(p.dst, Receive(p.src, p.msg))), p.dst, p)
  {
  }

  /** The response answers a request of the candidate's current term. */
  lemma CountedTerm(c: Cluster, c': Cluster, i: int, p: Packet)
    requires VotesInv(c) && PacketsInv(c) && Counted(c, c', i, p)
    ensures p.msg.term == c.nodes[i].term && (i, p.msg.term) in c.hist.requests
    ensures Vote(p.src, i, p.msg.term) in c.hist.votes && Vote(p.src, i, p.msg.term) !in c.hist.counted
    ensures c.net[p] == 1
  {
    assert ResponsePacketOk(c, p);
    assert VoteOk(c, Vote(p.src, i, p.msg.term));
    assert RequestOk(c, (i, p.msg.term));
  }

  lemma CountVotes(c: Cluster, c': Cluster, i: int, p: Packet)
    requires VotesInv(c) && PacketsInv(c) && Counted(c, c', i, p)
    ensures VotesInv(c')
  {
    CountedTerm(c, c', i, p);
    forall r | r in c'.hist.requests ensures RequestOk(c', r) {
      assert RequestOk(c, r);
    }
    forall v | v in c'.hist.votes ensures VoteOk(c', v) {
      assert VoteOk(c, v);
    }
  }

  lemma CountPackets(c: Cluster, c': Cluster, i: int, p: Packet)
    requires VotesInv(c) && PacketsInv(c) && Counted(c, c', i, p)
    ensures PacketsInv(c')
  {
    CountedTerm(c, c', i, p);
    forall q | q in c'.net && q.msg.VoteRequest? ensures RequestPacketOk(c', q) {
      assert RequestPacketOk(c, q);
    }
    forall q | q in c'.net && q.msg.VoteResponse? ensures ResponsePacketOk(c', q) {
      assert ResponsePacketOk(c, q);
    }
  }

  lemma TallyAdd(counted: set<Vote>, v: Vote)
    requires v !in counted
    ensures |Tally(counted + {v}, v.candidate, v.term)| == |Tally(counted, v.candidate, v.term)| + 1
    ensures forall j, t :: (j, t) != (v.candidate, v.term) ==> Tally(counted + {v}, j, t) == Tally(counted, j, t)
  {
    assert Tally(counted + {v}, v.candidate, v.term) == Tally(counted, v.candidate, v.term) + {v};
    forall j, t | (j, t) != (v.candidate, v.term) ensures Tally(counted + {v}, j, t) == Tally(counted, j, t) {
    }
  }

  lemma CountCount(c: Cluster, c': Cluster, i: int, p: Packet)
    requires VotesInv(c) && PacketsInv(c) && CountInv(c) && Counted(c, c', i, p)
    ensures CountInv(c')
  {
    CountedTerm(c, c', i, p);
    var n, v := c.nodes[i], Vote(p.src, i, p.msg.term);
    TallyAdd(c.hist.counted, v);
    assert CandidateOk(c, i);
    assert RequestOk(c, (i, n.term));
    forall j | 0 <= j < |c'.nodes| ensures CandidateOk(c', j) {
      assert CandidateOk(c, j);
    }
    forall w | w in c'.hist.wins ensures WinOk(c', w) {
      assert w in c.hist.wins ==> WinOk(c, w);
    }
  }

  lemma CountNext(c: Cluster, p: Packet)
    requires ShapeInv(c) && ElectionInv(c) && p in c.net && p.msg.VoteResponse? && 0 <= p.dst < |c.nodes|
    requires Considers(c.nodes[p.dst], p.msg)
    ensures Enabled(c, Do(p.dst, Receive(p.src, p.msg)))
    ensures ElectionInv(Next(c, Do(p.dst, Receive(p.src, p.msg))))
  {
    assert NodeShape(c.nodes[p.dst], p.dst, |c.nodes|);
    assert ResponsePacketOk(c, p);
    CountIsCounted(c, p);
    var c' := Next(c, Do(p.dst, Receive(p.src, p.msg)));
    CountVotes(c, c', p.dst, p);
    CountPackets(c, c', p.dst, p);
    CountCount(c, c', p.dst, p);
  }

  // ---- all steps, all runs ----

  lemma ElectionReceive(c: Cluster, i: int, a: Action)
    requires ShapeInv(c) && ElectionInv(c) && Enabled(c, Do(i, a)) && a.Receive? && !IsPassive(a)
    ensures ElectionInv(Next(c, Do(i, a)))
  {
    NetAfter(c, i, a);
    var p := Packet(a.from, i, a.msg);
    if a.msg.VoteRequest? {
      if Grants(c.nodes[i], a.msg) {
        GrantNext(c, p);
      } else {
        UngrantedIsCalm(c, i, a);
        CalmNext(c, Next(c, Do(i, a)), i);
      }
    } else {
      if Considers(c.nodes[i], a.msg) {
        CountNext(c, p);
      } else {
        IgnoredIsCalm(c, i, a);
        CalmNext(c, Next(c, Do(i, a)), i);
      }
    }
  }

  lemma ElectionDo(c: Cluster, i: int, a: Action)
    requires ShapeInv(c) && ElectionInv(c) && Enabled(c, Do(i, a))
    ensures ElectionInv(Next(c, Do(i, a)))
  {
    if IsPassive(a) {
      PassiveIsCalm(c, i, a);
      CalmNext(c, Next(c, Do(i, a)), i);
    } else if a.Receive? {
      ElectionReceive(c, i, a);
    } else if Asks(c.nodes[i], a) {
      AskNext(c, i);
    } else {
      if a.VoteCallback? { LateCallbackIsCalm(c, i); } else { TickIsCalm(c, i, a.expired); }
      CalmNext(c, Next(c, Do(i, a)), i);
    }
  }

  lemma ElectionNext(c: Cluster, s: Step)
    requires ShapeInv(c) && ElectionInv(c) && Enabled(c, s)
    ensures ElectionInv(Next(c, s))
  {
    match s
    case Do(i, a) => ElectionDo(c, i, a);
    case Drop(p) =>
      DropIsCalm(c, p);
      CalmNext(c, Next(c, s), 0);
  }

  lemma ElectionInit(c: Cluster)
    requires Init(c)
    ensures ElectionInv(c)
  {
  }

  lemma ElectionStep(c: Cluster, s: Step, c': Cluster)
    requires ShapeInv(c) && ElectionInv(c) && Enabled(c, s) && c' == Next(c, s)
    ensures ElectionInv(c')
  {
    ElectionNext(c, s);
  }

  lemma {:induction false} ElectionReachable(states: seq<Cluster>, steps: seq<Step>, k: nat)
    requires IsRun(states, steps) && k <= |steps|
    ensures ShapeInv(states[k]) && ElectionInv(states[k])
  {
    hide ElectionInv, ShapeInv, Next, Enabled;
    LogShape(states, steps, k);
    if k == 0 {
      ElectionInit(states[0]);
    } else {
      ElectionReachable(states, steps, k - 1);
      RunStep(states, steps, k - 1);
      ElectionStep(states[k - 1], steps[k - 1], states[k]);
    }
  }

  function Voters(votes: set<Vote>): set<int> {
    set v | v in votes :: v.voter
  }

  /** Votes of one term for one candidate come from as many voters. */
  lemma {:induction false} DistinctVoters(all: set<Vote>, votes: set<Vote>, term: int)
    requires OneVotePerTerm(all) && votes <= all && forall v :: v in votes ==> v.term == term
    ensures |Voters(votes)| == |votes|
    decreases |votes|
  {
    if votes != {} {
      var v :| v in votes;
      var rest := votes - {v};
      DistinctVoters(all, rest, term);
      assert v.voter !in Voters(rest);
      assert Voters(votes) == Voters(rest) + {v.voter};
    }
  }

  lemma SubsetSize(a: set<int>, b: set<int>)
    requires a <= b
    ensures |a| <= |b|
  {
    assert b == a + (b - a);
  }

  /** At most one node wins a term, although voters are not recorded by the candidate. */
  lemma OneWinner(c: Cluster, i: int, j: int, term: int)
    requires ElectionInv(c) && (i, term) in c.hist.wins && (j, term) in c.hist.wins
    ensures i == j
  {
    assert WinOk(c, (i, term)) && WinOk(c, (j, term));
    if i != j {
      var a, b := Tally(c.hist.counted, i, term), Tally(c.hist.counted, j, term);
      DistinctVoters(c.hist.votes, a, term);
      DistinctVoters(c.hist.votes, b, term);
      forall x | x in Voters(a) + Voters(b) ensures x in Ids(|c.nodes|) {
        var v :| v in c.hist.votes && v.voter == x;
        assert VoteOk(c, v);
      }
      assert Voters(a) !! Voters(b);
      SubsetSize(Voters(a) + Voters(b), Ids(|c.nodes|));
    }
  }

  /** The vote a node gives is its first in that term. */
  lemma FreshVote(c: Cluster, i: int, a: Action, v: Vote, w: Vote)
    requires ShapeInv(c) && ElectionInv(c) && Enabled(c, Do(i, a))
    requires v in Given(c.nodes[i], a) && w in c.hist.votes && w.voter == v.voter
    ensures w.term != v.term
  {
    hide CountInv, WellFormed, WellFormedSlice, OneVotePerTerm, OneRequestPacket;
    assert NodeShape(c.nodes[i], i, |c.nodes|);
    assert VoteOk(c, w) && RequestOk(c, (w.candidate, w.term));
    if a.Receive? {
      Received(c, i, a);
      var p := Packet(a.from, i, a.msg);
      assert PacketShape(p, |c.nodes|) && RequestPacketOk(c, p);
    }
  }

  lemma {:induction false} VotesGrow(states: seq<Cluster>, steps: seq<Step>, k: nat, l: nat)
    requires IsRun(states, steps) && k <= l <= |steps|
    ensures states[k].hist.votes <= states[l].hist.votes
    decreases l
  {
    if k < l {
      VotesGrow(states, steps, k, l - 1);
      assert states[(l - 1) + 1] == Next(states[l - 1], steps[l - 1]);
    }
  }

  /** Over a whole run, each voter gives at most one vote per term: not even to the same candidate twice. */
  lemma OneVotePerVoterAndTerm(states: seq<Cluster>, steps: seq<Step>, k: nat, l: nat, v: Vote, w: Vote)
    requires IsRun(states, steps) && k < l < |steps| && steps[k].Do? && steps[l].Do?
    requires 0 <= steps[k].i < |states[k].nodes| && v in Given(states[k].nodes[steps[k].i], steps[k].a)
    requires 0 <= steps[l].i < |states[l].nodes| && w in Given(states[l].nodes[steps[l].i], steps[l].a)
    requires v.voter == w.voter
    ensures v.term != w.term
  {
    assert Enabled(states[k], steps[k]) && states[k + 1] == Next(states[k], steps[k]);
    VotesGrow(states, steps, k + 1, l);
    ElectionReachable(states, steps, l);
    assert Enabled(states[l], steps[l]);
    FreshVote(states[l], steps[l].i, steps[l].a, w, v);
  }

  /** Over a whole run, each candidate broadcasts at most one vote request per term. */
  lemma OneRequestPerCandidateAndTerm(states: seq<Cluster>, steps: seq<Step>, k: nat, l: nat, i: int)
    requires IsRun(states, steps) && k < l < |steps| && steps[k] == steps[l] == Do(i, VoteCallback)
    requires 0 <= i < |states[k].nodes| && 0 <= i < |states[l].nodes|
    requires Asks(states[k].nodes[i], VoteCallback) && Asks(states[l].nodes[i], VoteCallback)
    ensures states[k].nodes[i].term != states[l].nodes[i].term
  {
    LogShape(states, steps, k);
    LogShape(states, steps, l);
    var before, after := states[k].nodes[i], states[l].nodes[i];
    assert NodeShape(before, i, |states[k].nodes|) && NodeShape(after, i, |states[l].nodes|);
    OneVotePerVoterAndTerm(states, steps, k, l, Vote(i, i, before.term), Vote(i, i, after.term));
  }

  /** Step k makes node i the winner of `term`. */
  ghost predicate WinsAt(states: seq<Cluster>, steps: seq<Step>, k: int, i: int, term: int) {
    && 0 <= k < |steps| && k + 1 < |states|
    && 0 <= i < |states[k].nodes| && i < |states[k + 1].nodes|
    && Wins(states[k].nodes[i], states[k + 1].nodes[i]) && states[k + 1].nodes[i].term == term
  }

  lemma WinRecorded(states: seq<Cluster>, steps: seq<Step>, k: nat, i: int, term: int)
    requires IsRun(states, steps) && WinsAt(states, steps, k, i, term)
    ensures (i, term) in states[k + 1].hist.wins
  {
    LogShape(states, steps, k);
    assert Enabled(states[k], steps[k]) && states[k + 1] == Next(states[k], steps[k]);
    assert NodeShape(states[k].nodes[i], i, |states[k].nodes|);
  }

  /** Over a whole run, a term is won at most once: same winner, same step. */
  lemma ElectionSafety(states: seq<Cluster>, steps: seq<Step>, k: nat, l: nat, i: int, j: int, term: int)
    requires IsRun(states, steps) && k <= l
    requires WinsAt(states, steps, k, i, term) && WinsAt(states, steps, l, j, term)
    ensures i == j && k == l
  {
    WinRecorded(states, steps, k, i, term);
    WinRecorded(states, steps, l, j, term);
    WinsGrow(states, steps, k + 1, l + 1);
    ElectionReachable(states, steps, l + 1);
    OneWinner(states[l + 1], i, j, term);
    if k < l {
      WinsGrow(states, steps, k + 1, l);
      ElectionReachable(states, steps, l);
      assert WinOk(states[l], (i, term));
      assert Enabled(states[l], steps[l]) && states[l + 1] == Next(states[l], steps[l]);
      WinIsNew(states[l], steps[l], i);
      assert false;
    }
  }

  lemma WonByVote(n: Node, a: Action)
    requires a.VoteCallback? ==> n.voteTimers > 0
    requires Wins(n, Act(n, a).node)
    ensures a.Receive? && a.msg.VoteResponse? && Considers(n, a.msg)
  {
    if IsPassive(a) {
      PassiveActions(n, a);
    }
  }

  /** A node that wins now has not won this term before. */
  lemma WinIsNew(c: Cluster, s: Step, i: int)
    requires ShapeInv(c) && ElectionInv(c) && Enabled(c, s) && 0 <= i < |c.nodes|
    requires Wins(c.nodes[i], Next(c, s).nodes[i])
    ensures (i, Next(c, s).nodes[i].term) !in c.hist.wins
    ensures s.Do? && s.i == i && s.a.Receive? && s.a.msg.VoteResponse? && Next(c, s).nodes[i].term == c.nodes[i].term
  {
    var a := s.a;
    WonByVote(c.nodes[i], a);
    NetAfter(c, i, a);
    var p := Packet(a.from, i, a.msg);
    assert NodeShape(c.nodes[i], i, |c.nodes|) && ResponsePacketOk(c, p);
    CountIsCounted(c, p);
    CountedTerm(c, Next(c, s), i, p);
    assert (i, c.nodes[i].term) in c.hist.wins ==> WinOk(c, (i, c.nodes[i].term));
  }
}
