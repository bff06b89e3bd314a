/** A leader and one follower exchanging append requests and responses in lockstep: the follower
    catches up, and after how many rounds. */
module CatchUp {
  import opened Types
  import opened Logs
  import opened NodeSteps

  /** The length of the longest common prefix, searched from position i on. */
  ghost function Common(a: seq<Entry>, b: seq<Entry>, i: nat): (c: nat)
    requires i <= |a| && i <= |b| && a[..i] == b[..i]
    ensures i <= c <= |a| && c <= |b| && a[..c] == b[..c]
    ensures c < |a| && c < |b| ==> a[c] != b[c]
    decreases |a| - i
  {
    if i < |a| && i < |b| && a[i] == b[i] then Common(a, b, i + 1) else i
  }

  /** The longest common prefix has no other length. */
  lemma CommonIs(a: seq<Entry>, b: seq<Entry>, c: nat)
    requires c <= |a| && c <= |b| && a[..c] == b[..c]
    requires c < |a| && c < |b| ==> a[c] != b[c]
    ensures Common(a, b, 0) == c
  {
    var d := Common(a, b, 0);
    assert forall i :: 0 <= i < d ==> a[i] == a[..d][i] && b[i] == b[..d][i];
    assert forall i :: 0 <= i < c ==> a[i] == a[..c][i] && b[i] == b[..c][i];
  }

  /** What the leader has on the way to the follower: the next entry, or a heartbeat when
      there is nothing to send. */
  function Request(leader: Node, f: int): Message {
    if Sendable(leader, f) then EntryRequest(leader, f) else Heartbeat(leader)
  }

  datatype Pair = Pair(leader: Node, follower: Node)

  /** One round: the request arrives, the response comes back and sends the next entry,
      or the heartbeat timer fires when nothing is sendable. */
  function Round(p: Pair): Pair {
    var m := Request(p.leader, p.follower.id);
    var l := OnAppendResponse(p.leader, Response(p.follower, m)).node;
    Pair(if Sendable(l, p.follower.id) then l else OnHeartbeatTick(l).node, Follow(p.follower, m))
  }

  function Rounds(p: Pair, k: nat): Pair
    decreases k
  {
    if k == 0 then p else Rounds(Round(p), k - 1)
  }

  /** A leader with one request in flight to a follower whose log matches its own. */
  ghost predicate Lockstep(p: Pair) {
    var l, f := p.leader, p.follower;
    && l.role.Leader? && f.term <= l.term
    && l.id != f.id && 0 <= f.id < l.total
    && WellFormed(l.log, l.term) && WellFormed(f.log, f.term) && Matching(l.log, f.log)
    && Get(l.nextIndex, f.id) >= 1
    && Get(l.pending, f.id) == 1
  }

  ghost predicate CaughtUp(p: Pair) {
    p.leader.log <= p.follower.log
  }

  /** Rounds left: entries the follower lacks, plus how far the next index is from the point
      where the logs part. */
  ghost function Distance(p: Pair): int {
    var l, f := p.leader, p.follower;
    var c, next := Common(l.log, f.log, 0), Get(l.nextIndex, f.id);
    |l.log| - c + if next < c then |f.log| - c + 1 else next - c
  }

  // ---- the handlers, seen from the logs ----

  lemma FollowEffect(n: Node, m: Message)
    requires m.AppendRequest? && m.term >= n.term
    ensures var r := Follow(n, m);
            && r.id == n.id && r.term == m.term
            && r.log == (if InSync(n.log, m.prevTerm, m.prevIndex) then Append(n.log, m.prevIndex, m.entries) else n.log)
            && Response(n, m).AppendResponse? && Response(n, m).term == m.term && Response(n, m).followerId == n.id
            && Response(n, m).success == InSync(n.log, m.prevTerm, m.prevIndex)
            && (Response(n, m).success ==> Response(n, m).lastSynced == Last(r.log).index)
  {
    hide Append, ApplyRange, InSync;
  }

  /** The leader's bookkeeping for the follower after its response. */
  lemma DigestNext(n: Node, m: Message)
    requires m.AppendResponse? && m.term <= n.term
    ensures var d, f := Digest(n, m), m.followerId;
            && d.log == n.log && d.term == n.term && d.role == n.role && d.id == n.id && d.total == n.total
            && Get(d.nextIndex, f) == (if m.success then m.lastSynced + 1 else Max(1, Get(n.nextIndex, f) - 1))
            && Get(d.pending, f) == Max(0, Get(n.pending, f) - 1)
  {
    hide ApplyRange, MajoritySynced;
  }

  /** With one request in flight, the response frees the gate and the next entry goes out at once. */
  lemma ResponseSends(n: Node, m: Message)
    requires m.AppendResponse? && m.term <= n.term && Get(n.pending, m.followerId) == 1
    ensures var o, f := OnAppendResponse(n, m), m.followerId;
            && o.node.log == n.log && o.node.term == n.term && o.node.role == n.role
            && o.node.id == n.id && o.node.total == n.total
            && Get(o.node.nextIndex, f) == (if m.success then m.lastSynced + 1 else Max(1, Get(n.nextIndex, f) - 1))
            && (if Sendable(o.node, f)
                then Get(o.node.pending, f) == 1 && o.sent == multiset{Packet(n.id, f, Request(o.node, f))}
                else Get(o.node.pending, f) == 0 && o.sent == multiset{})
  {
    DigestNext(n, m);
    hide Digest;
  }

  lemma HeartbeatNext(n: Node, f: int)
    requires n.role.Leader? && 0 <= f < n.total && f != n.id
    ensures var h := OnHeartbeatTick(n).node;
            && h.log == n.log && h.term == n.term && h.role == n.role && h.id == n.id && h.total == n.total
            && h.nextIndex == n.nextIndex && Get(h.pending, f) == Get(n.pending, f) + 1
            && Packet(n.id, f, Heartbeat(n)) in OnHeartbeatTick(n).sent
  {
  }

  /** The logs and the next index after one round. */
  lemma RoundEffect(p: Pair)
    requires Lockstep(p)
    ensures var l, f, q := p.leader, p.follower, Round(p);
            var m := Request(l, f.id);
            && q.leader.log == l.log && q.leader.term == l.term && q.leader.role == l.role
            && q.leader.id == l.id && q.leader.total == l.total
            && q.follower.id == f.id && q.follower.term == l.term
            && Get(q.leader.pending, f.id) == 1
            && (if InSync(f.log, m.prevTerm, m.prevIndex)
                then q.follower.log == Append(f.log, m.prevIndex, m.entries)
                     && Get(q.leader.nextIndex, f.id) == Last(q.follower.log).index + 1
                else q.follower.log == f.log
                     && Get(q.leader.nextIndex, f.id) == Max(1, Get(l.nextIndex, f.id) - 1))
  {
    hide OnAppendResponse, OnHeartbeatTick, Follow, Response, Append, InSync, WellFormed, Matching;
    var l, f := p.leader, p.follower;
    var m := Request(l, f.id);
    FollowEffect(f, m);
    ResponseSends(l, Response(f, m));
    HeartbeatNext(OnAppendResponse(l, Response(f, m)).node, f.id);
  }

  // ---- progress ----

  /** The next index is below the fork: the entry is already there, and the reply jumps past the fork. */
  lemma RoundBelow(p: Pair)
    requires Lockstep(p) && Get(p.leader.nextIndex, p.follower.id) < Common(p.leader.log, p.follower.log, 0)
    ensures Round(p).follower.log == p.follower.log
    ensures Get(Round(p).leader.nextIndex, p.follower.id) == |p.follower.log|
  {
    hide Round;
    RoundEffect(p);
    var l, f := p.leader, p.follower;
    var n, m := Get(l.nextIndex, f.id), Request(l, f.id);
    var c := Common(l.log, f.log, 0);
    assert l.log[n] == l.log[..c][n] == f.log[..c][n] == f.log[n];
    assert l.log[n - 1] == l.log[..c][n - 1] == f.log[..c][n - 1] == f.log[n - 1];
    assert Present(f.log, n - 1, m.entries, 0);
    AppendIs(f.log, n - 1, m.entries, 1);
  }

  /** The next index is at the fork: the follower gets the entry there and drops what followed. */
  lemma RoundAt(p: Pair)
    requires Lockstep(p) && !CaughtUp(p)
    requires Get(p.leader.nextIndex, p.follower.id) == Common(p.leader.log, p.follower.log, 0)
    ensures var c := Common(p.leader.log, p.follower.log, 0);
            && c < |p.leader.log|
            && Round(p).follower.log == p.leader.log[..c + 1]
            && Get(Round(p).leader.nextIndex, p.follower.id) == c + 1
  {
    hide Round, Append, InSync, Common, Matching, NonDecreasing;
    RoundEffect(p);
    AppendAtFork(p.leader.log, p.follower.log, Common(p.leader.log, p.follower.log, 0));
  }

  lemma AppendAtFork(a: seq<Entry>, b: seq<Entry>, c: nat)
    requires 0 < c < |a| && c <= |b| && a[..c] == b[..c] && (c < |b| ==> a[c] != b[c]) && Matching(a, b)
    ensures InSync(b, a[c - 1].term, c - 1) && Append(b, c - 1, [a[c]]) == a[..c + 1]
  {
    assert a[c - 1] == a[..c][c - 1] == b[..c][c - 1] == b[c - 1];
    assert c < |b| ==> a[..c + 1] != b[..c + 1] by {
      if c < |b| { assert a[..c + 1][c] != b[..c + 1][c]; }
    }
    assert FirstMissing(b, c - 1, [a[c]], 0);
    AppendIs(b, c - 1, [a[c]], 0);
    assert b[..c] + [a[c]][0..] == a[..c + 1];
  }

  /** The next index is past the fork: the consistency test fails and it goes down by one. */
  lemma RoundAbove(p: Pair)
    requires Lockstep(p) && !CaughtUp(p)
    requires Get(p.leader.nextIndex, p.follower.id) > Common(p.leader.log, p.follower.log, 0)
    ensures Round(p).follower.log == p.follower.log
    ensures Get(Round(p).leader.nextIndex, p.follower.id) == Get(p.leader.nextIndex, p.follower.id) - 1
  {
    hide Round;
    RoundEffect(p);
    var l, f := p.leader, p.follower;
    var c := Common(l.log, f.log, 0);
    var m := Request(l, f.id);
    var at := m.prevIndex;
    assert c <= at < |l.log| && m.prevTerm == l.log[at].term;
    assert c < |f.log| ==> l.log[..at + 1][c] != f.log[c];
  }

  lemma CommonPositive(p: Pair)
    requires Lockstep(p)
    ensures Common(p.leader.log, p.follower.log, 0) >= 1
    ensures !CaughtUp(p) ==> Common(p.leader.log, p.follower.log, 0) < |p.leader.log|
  {
    var c := Common(p.leader.log, p.follower.log, 0);
    assert c == |p.leader.log| ==> p.leader.log[..c] == p.leader.log;
  }

  lemma LockstepAgain(p: Pair, q: Pair)
    requires Lockstep(p)
    requires q.leader.log == p.leader.log && q.leader.term == p.leader.term && q.leader.role == p.leader.role
    requires q.leader.id == p.leader.id && q.leader.total == p.leader.total
    requires q.follower.id == p.follower.id && q.follower.term == p.leader.term
    requires Get(q.leader.pending, p.follower.id) == 1 && Get(q.leader.nextIndex, p.follower.id) >= 1
    requires q.follower.log == p.follower.log ||
             exists k :: 0 < k <= |p.leader.log| && q.follower.log == p.leader.log[..k]
    ensures Lockstep(q)
  {
    if q.follower.log != p.follower.log {
      var k :| 0 < k <= |p.leader.log| && q.follower.log == p.leader.log[..k];
      assert Matching(p.leader.log, p.leader.log[..k]);
    }
  }

  /** Every round before the follower has caught up brings it closer. */
  lemma RoundProgress(p: Pair)
    requires Lockstep(p) && !CaughtUp(p)
    ensures Lockstep(Round(p)) && Round(p).leader.log == p.leader.log
    ensures 0 <= Distance(Round(p)) < Distance(p)
  {
    hide Round, CaughtUp, WellFormed, Matching;
    RoundEffect(p);
    CommonPositive(p);
    var l, f, q := p.leader, p.follower, Round(p);
    var c, next := Common(l.log, f.log, 0), Get(l.nextIndex, f.id);
    if next < c {
      RoundBelow(p);
    } else if next == c {
      RoundAt(p);
      assert l.log[..c + 1][..c + 1] == l.log[..c + 1];
      CommonIs(l.log, l.log[..c + 1], c + 1);
    } else {
      RoundAbove(p);
    }
    LockstepAgain(p, q);
  }

  /** Catch-up terminates: within Distance(p) rounds the leader's log is a prefix of the follower's. */
  lemma {:induction false} CatchUpTerminates(p: Pair) returns (k: nat)
    requires Lockstep(p)
    ensures CaughtUp(Rounds(p, k)) && Rounds(p, k).leader.log == p.leader.log
    ensures k <= Distance(p)
    decreases Distance(p)
  {
    CommonPositive(p);
    if CaughtUp(p) {
      return 0;
    }
    RoundProgress(p);
    k := CatchUpTerminates(Round(p));
    k := k + 1;
  }
}
