/** What each handler must do, said in terms of the fields of the node and the packets it sends. */
module Duties {
  import opened Types
  import opened Logs
  import opened NodeSteps

  // ---- elections ----

  /** The node is free to vote for the candidate in that term. */
  predicate MayVote(n: Node, term: int, candidate: int) {
    && !n.role.Leader?
    && (term > n.term || (term == n.term && (n.votedFor == NOBODY || n.votedFor == candidate)))
  }

  /** A vote is sent exactly when the node is free to give it; it is then remembered together with the term. */
  lemma VoteGrantedIff(n: Node, m: Message)
    requires m.VoteRequest?
    ensures var o := OnVoteRequest(n, m);
            && (Packet(n.id, m.candidateId, VoteResponse(m.term, 1)) in o.sent <==> MayVote(n, m.term, m.candidateId))
            && (MayVote(n, m.term, m.candidateId) ==>
                  && o.sent == multiset{Packet(n.id, m.candidateId, VoteResponse(m.term, 1))}
                  && o.node.votedFor == m.candidateId && o.node.term == m.term
                  && o.node.votes == if m.term > n.term then 0 else n.votes)
  {
  }

  /** A refusal is sent exactly when the term is over or the vote of the term went to somebody else, and changes nothing. */
  lemma VoteRefusedIff(n: Node, m: Message)
    requires m.VoteRequest?
    ensures var o := OnVoteRequest(n, m);
            var refused := m.term < n.term || (m.term == n.term && n.votedFor !in {NOBODY, m.candidateId});
            && (Packet(n.id, m.candidateId, VoteResponse(m.term, 0)) in o.sent <==> refused)
            && (refused ==> o.node == n && o.sent == multiset{Packet(n.id, m.candidateId, VoteResponse(m.term, 0))})
            && (!refused && n.role.Leader? ==>
                  o.sent == multiset{} && o.node == n.(term := m.term, votes := if m.term > n.term then 0 else n.votes))
  {
  }

  /** A candidate becomes leader exactly when a response that is neither a refusal nor stale brings its
      votes to more than half of the nodes. */
  lemma ElectedIff(n: Node, m: Message)
    requires m.VoteResponse?
    ensures var o := OnVoteResponse(n, m);
            var votes := n.votes + if m.granted == 1 then 1 else 0;
            var heard := n.role.Candidate? && m.granted != 0 && m.term >= n.term;
            && (o.node.role.Leader? <==> n.role.Leader? || (heard && 2 * votes > n.total))
            && o.node.votes == (if heard then votes else n.votes)
            && o.node.term == (if heard && 2 * votes > n.total then m.term else n.term)
            && o.sent == multiset{}
            && o.node == n.(role := o.node.role, votes := o.node.votes, term := o.node.term)
  {
  }

  /** The vote timer starts a round at a candidate, and at a follower exactly when it has not heard from its leader in time. */
  lemma RoundStartsIff(n: Node, expired: bool)
    ensures var m := OnVoteTick(n, expired).node;
            && (m.term == n.term + 1 <==> n.role.Candidate? || (n.role.Follower? && expired))
            && (m.term != n.term ==>
                  m == n.(role := Candidate, term := n.term + 1, votedFor := NOBODY, votes := 0, voteTimers := n.voteTimers + 1))
            && (m.term == n.term ==> m == n)
            && OnVoteTick(n, expired).sent == multiset{}
  {
  }

  /** A broadcast is one packet to each other node. */
  lemma BroadcastIs(id: int, total: int, msg: Message, p: Packet)
    ensures Broadcast(id, total, msg)[p] == if p.src == id && p.msg == msg && 0 <= p.dst < total && p.dst != id then 1 else 0
  {
    var packets := set i | i in Others(total, id) :: Packet(id, i, msg);
    if p.src == id && p.msg == msg && 0 <= p.dst < total && p.dst != id {
      assert p.dst in Others(total, id);
      assert p in packets;
    } else {
      assert p !in packets;
    }
  }

  /** A delayed callback asks every other node for its vote, once, exactly when the node has not voted since. */
  lemma AsksEverybody(n: Node, p: Packet)
    requires n.voteTimers > 0 && |n.log| > 0
    ensures var o := OnVoteCallback(n);
            var last := n.log[|n.log| - 1];
            && o.sent[p] == (if n.votedFor == NOBODY && p.src == n.id && 0 <= p.dst < n.total && p.dst != n.id
                                && p.msg == VoteRequest(n.term, n.id, last.index, last.term) then 1 else 0)
            && o.node == n.(voteTimers := n.voteTimers - 1,
                            votedFor := if n.votedFor == NOBODY then n.id else n.votedFor,
                            votes := if n.votedFor == NOBODY then n.votes + 1 else n.votes)
  {
    hide Broadcast;
    BroadcastIs(n.id, n.total, VoteRequest(n.term, n.id, n.log[|n.log| - 1].index, n.log[|n.log| - 1].term), p);
  }

  /** A leader's heartbeat goes to every other node, once, names its last entry and its commit index, and is counted
      for each of them; other nodes send none. */
  lemma BeatsEverybody(n: Node, p: Packet, f: int)
    requires |n.log| > 0
    ensures var o := OnHeartbeatTick(n);
            var last := n.log[|n.log| - 1];
            && o.sent[p] == (if n.role.Leader? && p.src == n.id && 0 <= p.dst < n.total && p.dst != n.id
                                && p.msg == AppendRequest(n.term, n.id, last.index, last.term, [], n.commit) then 1 else 0)
            && Get(o.node.pending, f) == Get(n.pending, f) + (if n.role.Leader? && 0 <= f < n.total && f != n.id then 1 else 0)
            && o.node == n.(pending := o.node.pending)
  {
    hide Broadcast;
    BroadcastIs(n.id, n.total, Heartbeat(n), p);
  }

  // ---- replication: the follower ----

  /** A request is answered once, to its leader: with success exactly when its term is not over and the log has the
      entry before it; the success names the last index of the log as it is then. */
  lemma AnsweredIff(n: Node, m: Message)
    requires m.AppendRequest? && m.prevIndex >= 0 && |n.log| > 0
    ensures var o := OnAppendRequest(n, m);
            var fits := m.term >= n.term && m.prevIndex < |n.log| && n.log[m.prevIndex].term == m.prevTerm;
            && |o.node.log| > 0
            && o.sent == multiset{Packet(n.id, m.leaderId,
                                         if fits then AppendResponse(m.term, n.id, true, o.node.log[|o.node.log| - 1].index)
                                         else AppendResponse(if m.term >= n.term then m.term else n.term, n.id, false, -1))}
            && (!fits ==> o.node.log == n.log)
  {
    hide ApplyRange, Append;
    if m.term >= n.term && InSync(n.log, m.prevTerm, m.prevIndex) {
      AppendKeepsPrefix(n.log, m.prevIndex, m.entries);
    }
  }

  /** A request of a current term makes a candidate, and a leader of a lower term, a follower of its sender;
      one whose term is over makes the node forget its leader and nothing else. */
  lemma FollowsIff(n: Node, m: Message)
    requires m.AppendRequest?
    ensures var f := Follow(n, m);
            && (m.term < n.term ==> f == n.(leader := NOBODY))
            && (m.term >= n.term ==> f.term == m.term && f.leader == m.leaderId)
            && (m.term >= n.term && (!n.role.Leader? || m.term > n.term) ==> f.role.Follower?)
            && (m.term == n.term && n.role.Leader? ==> f.role.Leader?)
            && f.votedFor == n.votedFor && f.votes == n.votes && f.voteTimers == n.voteTimers
            && f.nextIndex == n.nextIndex && f.matched == n.matched && f.pending == n.pending
  {
    hide ApplyRange, Append;
  }

  /** A request moves the commit index to the leader's exactly when it fits and the leader's is ahead and inside the
      log before the new entries; the entries up to it are then applied and the one at it stored. */
  lemma FollowerCommitsIff(n: Node, m: Message)
    requires m.AppendRequest? && n.commit >= 0
    ensures var f, x := Follow(n, m), m.leaderCommit;
            var moves := m.term >= n.term && InSync(n.log, m.prevTerm, m.prevIndex) && n.commit < x < |n.log|;
            && (moves ==> f.commit == x && f.applied == n.applied + n.log[n.commit + 1..x + 1]
                          && f.stored == n.stored + [n.log[x]] && f.advances == n.advances + [x])
            && (!moves ==> f.commit == n.commit && f.applied == n.applied && f.stored == n.stored && f.advances == n.advances)
  {
    hide Append;
    var x := m.leaderCommit;
    assert n.commit < x < |n.log| ==> n.log[x..x + 1] == [n.log[x]];
  }

  // ---- replication: the leader ----

  /** The followers a map says have everything up to x. */
  function Having(matched: map<int, int>, x: int): set<int> {
    set f | f in matched && x <= matched[f]
  }

  /** A success moves the commit index to what the follower has exactly when that is ahead and, counting the node itself,
      more than half of the nodes have it; the entries up to it are then applied and the one at it stored. */
  lemma LeaderCommitsIff(n: Node, m: Message)
    requires m.AppendResponse? && m.success && 0 <= n.commit && m.lastSynced < |n.log|
    ensures var o, x := OnAppendResponse(n, m).node, m.lastSynced;
            var moves := n.commit < x && 2 * (|Having(n.matched[m.followerId := x], x)| + 1) > n.total;
            && (moves ==> o.commit == x && o.applied == n.applied + n.log[n.commit + 1..x + 1]
                          && o.stored == n.stored + [n.log[x]] && o.advances == n.advances + [x])
            && (!moves ==> o.commit == n.commit && o.applied == n.applied && o.stored == n.stored && o.advances == n.advances)
  {
    var x := m.lastSynced;
    var a := n.(matched := n.matched[m.followerId := x]);
    assert Having(a.matched, x) == SyncedWith(a.matched, x);
    hide SyncedWith, Having;
    if n.commit < x {
      CommitsTo(n, x);
    }
    hide ApplyRange, CanSend, EntryRequest;
  }

  lemma CommitsTo(n: Node, x: int)
    requires 0 <= n.commit < x < |n.log|
    ensures ApplyRange(n.log, n.commit + 1, x + 1) == n.log[n.commit + 1..x + 1] && ApplyRange(n.log, x, x + 1) == [n.log[x]]
  {
    assert n.log[x..x + 1] == [n.log[x]];
  }

  /** What a response teaches the node about the follower: what it has after a success, one step back after a failure of
      the same term; a failure of a higher term only teaches the term. */
  lemma LearnsOfFollower(n: Node, m: Message)
    requires m.AppendResponse?
    ensures var o, f := OnAppendResponse(n, m).node, m.followerId;
            var back := if Get(n.nextIndex, f) - 1 > 1 then Get(n.nextIndex, f) - 1 else 1;
            && o.matched == (if m.success then n.matched[f := m.lastSynced] else n.matched)
            && o.nextIndex == n.nextIndex[f := if m.success then m.lastSynced + 1
                                               else if m.term > n.term then Get(n.nextIndex, f) else back]
            && o.term == (if !m.success && m.term > n.term then m.term else n.term)
            && o.role == n.role && o.leader == n.leader && o.log == n.log
            && o.votedFor == n.votedFor && o.votes == n.votes && o.voteTimers == n.voteTimers
  {
    var d, f := Digest(n, m), m.followerId;
    DigestLearns(n, m);
    hide Digest, CanSend, EntryRequest;
    assert d.nextIndex[f := Get(d.nextIndex, f)] == d.nextIndex || f !in d.nextIndex;
  }

  lemma DigestLearns(n: Node, m: Message)
    requires m.AppendResponse?
    ensures var d, f := Digest(n, m), m.followerId;
            var back := if Get(n.nextIndex, f) - 1 > 1 then Get(n.nextIndex, f) - 1 else 1;
            && d.matched == (if m.success then n.matched[f := m.lastSynced] else n.matched)
            && d.nextIndex == (if m.success then n.nextIndex[f := m.lastSynced + 1]
                               else if m.term > n.term then n.nextIndex else n.nextIndex[f := back])
            && d.term == (if !m.success && m.term > n.term then m.term else n.term)
            && d.role == n.role && d.leader == n.leader && d.log == n.log
            && d.votedFor == n.votedFor && d.votes == n.votes && d.voteTimers == n.voteTimers
  {
    hide ApplyRange, MajoritySynced;
  }

  /** The next entry a node has for a follower, with the entry before it, its term and its commit index. */
  function Offer(n: Node, f: int): Message
    requires 1 <= Get(n.nextIndex, f) < |n.log|
  {
    var next := Get(n.nextIndex, f);
    AppendRequest(n.term, n.id, next - 1, n.log[next - 1].term, n.log[next..next + 1], n.commit)
  }

  /** The next entry is sent and counted exactly when there is one and fewer than two requests are pending. */
  lemma OffersIff(n: Node, f: int)
    ensures var o := Trigger(n, f);
            var sends := 1 <= Get(n.nextIndex, f) < |n.log| && Get(n.pending, f) < 2;
            && o.sent == (if sends then multiset{Packet(n.id, f, Offer(n, f))} else multiset{})
            && Get(o.node.pending, f) == Get(n.pending, f) + (if sends then 1 else 0)
            && (forall g :: g != f ==> Get(o.node.pending, g) == Get(n.pending, g))
  {
    if Sendable(n, f) {
      var next := Get(n.nextIndex, f);
      assert n.log[next..next + 1] == [n.log[next]];
    }
  }

  /** A response offers the follower its next entry, as the node then stands, exactly when there is one and at most
      one other request is pending. */
  lemma ResponseOffersIff(n: Node, m: Message)
    requires m.AppendResponse?
    ensures var o, f := OnAppendResponse(n, m), m.followerId;
            var left := if Get(n.pending, f) > 0 then Get(n.pending, f) - 1 else 0;
            var sends := 1 <= Get(o.node.nextIndex, f) < |n.log| && left < 2;
            && o.node.log == n.log && o.node.id == n.id
            && o.sent == (if sends then multiset{Packet(n.id, f, Offer(o.node, f))} else multiset{})
            && Get(o.node.pending, f) == left + (if sends then 1 else 0)
  {
    var d, f := Digest(n, m), m.followerId;
    DigestKeeps(n, m);
    hide Digest;
    OffersIff(d, f);
  }

  lemma DigestKeeps(n: Node, m: Message)
    requires m.AppendResponse?
    ensures var d := Digest(n, m);
            && d.log == n.log && d.id == n.id
            && d.pending == n.pending[m.followerId := if Get(n.pending, m.followerId) > 0
                                                      then Get(n.pending, m.followerId) - 1 else 0]
  {
    hide ApplyRange, MajoritySynced;
  }

  /** A leader puts the entry at the end of its log, under its term and the next index; other nodes do nothing. */
  lemma EntryAddedIff(n: Node, id: int, operation: int, text: string)
    ensures var o := AddEntry(n, id, operation, text);
            && (n.role.Leader? ==>
                  o.node == n.(log := n.log + [Entry(|n.log|, n.term, id, operation, text)], pending := o.node.pending))
            && (!n.role.Leader? ==> o.node == n && o.sent == multiset{})
  {
  }

  /** And offers every follower its next entry, once, exactly when it has one and fewer than two requests are pending. */
  lemma EverybodyOffered(n: Node, id: int, operation: int, text: string, p: Packet)
    requires n.role.Leader?
    ensures var o, l := AddEntry(n, id, operation, text), n.log + [Entry(|n.log|, n.term, id, operation, text)];
            var f := p.dst;
            var sends := f in n.nextIndex && 1 <= n.nextIndex[f] < |l| && Get(n.pending, f) < 2;
            && o.sent[p] == (if sends && p == Packet(n.id, f, Offer(n.(log := l), f)) then 1 else 0)
            && Get(o.node.pending, f) == Get(n.pending, f) + (if sends then 1 else 0)
  {
    var m := n.(log := n.log + [Entry(|n.log|, n.term, id, operation, text)]);
    var packets := set f | f in Ready(m) :: Packet(n.id, f, EntryRequest(m, f));
    var f := p.dst;
    if f in Ready(m) {
      assert m.log[m.nextIndex[f]..m.nextIndex[f] + 1] == [m.log[m.nextIndex[f]]];
      assert p == Packet(n.id, f, EntryRequest(m, f)) ==> p in packets;
    }
  }
}
