/** Log Matching across elections, truncations, lost and reordered messages. */
module LogMatching {
  import opened Types
  import opened Logs
  import opened NodeSteps
  import opened Clusters
  import opened Shape
  import opened Election

  /** Up to its entry k, the log is what the leader of that entry's term had. */
  ghost predicate LedAt(lead: map<int, seq<Entry>>, log: seq<Entry>, k: int)
    requires 0 <= k < |log|
  {
    var t := log[k].term;
    t in lead && k < |lead[t]| && lead[t][..k + 1] == log[..k + 1]
  }

  ghost predicate Led(lead: map<int, seq<Entry>>, log: seq<Entry>) {
    && |log| > 0 && log[0] == SENTINEL
    && forall k :: 1 <= k < |log| ==> LedAt(lead, log, k)
  }

  /** The entries of a request are a piece of the log of the leader of their last term. */
  ghost predicate LedRequest(lead: map<int, seq<Entry>>, m: Message)
    requires m.AppendRequest?
  {
    m.entries == [] ||
    var t := Last(m.entries).term;
    t in lead && SliceOf(lead[t], m.prevIndex, m.prevTerm, m.entries)
  }

  /** Leaders' logs only grow. */
  ghost predicate Grows(lead: map<int, seq<Entry>>, lead': map<int, seq<Entry>>) {
    forall t :: t in lead ==> t in lead' && lead[t] <= lead'[t]
  }

  function WonTerms(wins: set<(int, int)>): set<int> {
    set w | w in wins :: w.1
  }

  /** A leader leads a term it won, and its log is the one recorded for that term. */
  ghost predicate Leads(c: Cluster, i: int)
    requires 0 <= i < |c.nodes|
  {
    var n := c.nodes[i];
    n.role.Leader? ==> (i, n.term) in c.hist.wins && n.term in c.hist.lead && c.hist.lead[n.term] == n.log
  }

  ghost predicate MatchInv(c: Cluster) {
    && (forall i :: 0 <= i < |c.nodes| ==> Leads(c, i))
    && c.hist.lead.Keys <= WonTerms(c.hist.wins)
    && (forall t :: t in c.hist.lead ==> Led(c.hist.lead, c.hist.lead[t]))
    && (forall i :: 0 <= i < |c.nodes| ==> Led(c.hist.lead, c.nodes[i].log))
    && (forall p :: p in c.net && p.msg.AppendRequest? ==> LedRequest(c.hist.lead, p.msg))
  }

  /** A leader takes over a higher term and goes on leading. */
  predicate RaisesLeader(n: Node, m: Message) {
    && n.role.Leader?
    && (|| (m.VoteRequest? && m.term > n.term)
        || (m.AppendResponse? && !m.success && m.term > n.term))
  }

  /** A leader accepts an append request for its own term that has another term where the leader has an entry. */
  predicate Contradicts(n: Node, m: Message) {
    && n.role.Leader? && m.AppendRequest? && m.term == n.term
    && InSync(n.log, m.prevTerm, m.prevIndex)
    && exists k :: 0 <= k < |m.entries| && m.prevIndex + 1 + k < |n.log|
                   && n.log[m.prevIndex + 1 + k].term != m.entries[k].term
  }

  /** The run condition for Log Matching. */
  predicate Steady(c: Cluster, s: Step)
    requires Enabled(c, s)
  {
    s.Do? && s.a.Receive? ==>
      !RaisesLeader(c.nodes[s.i], s.a.msg) && !Contradicts(c.nodes[s.i], s.a.msg)
  }

  lemma LedGrows(lead: map<int, seq<Entry>>, lead': map<int, seq<Entry>>, log: seq<Entry>)
    requires Grows(lead, lead') && Led(lead, log)
    ensures Led(lead', log)
  {
    forall k | 1 <= k < |log| ensures LedAt(lead', log, k) {
      assert LedAt(lead, log, k);
    }
  }

  lemma LedRequestGrows(lead: map<int, seq<Entry>>, lead': map<int, seq<Entry>>, m: Message)
    requires Grows(lead, lead') && m.AppendRequest? && LedRequest(lead, m)
    ensures LedRequest(lead', m)
  {
    if m.entries != [] {
      var t := Last(m.entries).term;
      assert lead[t] <= lead'[t];
    }
  }

  /** Two led logs match. */
  lemma LedMatch(lead: map<int, seq<Entry>>, a: seq<Entry>, b: seq<Entry>)
    requires Led(lead, a) && Led(lead, b)
    ensures Matching(a, b)
  {
    forall k | 0 <= k < |a| && k < |b| && a[k].term == b[k].term ensures a[..k + 1] == b[..k + 1] {
      if k > 0 {
        assert LedAt(lead, a, k) && LedAt(lead, b, k);
      }
    }
  }

  lemma LedPrefix(lead: map<int, seq<Entry>>, log: seq<Entry>, k: int)
    requires Led(lead, log) && 0 < k <= |log|
    ensures Led(lead, log[..k])
  {
    forall j | 1 <= j < k ensures LedAt(lead, log[..k], j) {
      assert LedAt(lead, log, j);
      assert log[..k][..j + 1] == log[..j + 1];
    }
  }

  /** A piece of a led log is a led request. */
  lemma SliceIsLed(lead: map<int, seq<Entry>>, log: seq<Entry>, m: Message)
    requires Led(lead, log) && m.AppendRequest? && SliceOf(log, m.prevIndex, m.prevTerm, m.entries)
    ensures LedRequest(lead, m)
  {
    if m.entries != [] {
      var k := m.prevIndex + |m.entries|;
      assert LedAt(lead, log, k);
      var l := lead[log[k].term];
      assert l[..k + 1] == log[..k + 1];
      assert m.entries == log[m.prevIndex + 1..k + 1] == l[..k + 1][m.prevIndex + 1..];
      assert l[m.prevIndex] == l[..k + 1][m.prevIndex] == log[m.prevIndex];
    }
  }

  /** Appending a led request to a led log that passes the consistency test gives a led log. */
  lemma AppendLed(lead: map<int, seq<Entry>>, log: seq<Entry>, m: Message)
    requires forall t :: t in lead ==> Led(lead, lead[t])
    requires Led(lead, log) && m.AppendRequest? && LedRequest(lead, m)
    requires InSync(log, m.prevTerm, m.prevIndex)
    ensures Led(lead, Append(log, m.prevIndex, m.entries))
  {
    if m.entries != [] {
      var source := lead[Last(m.entries).term];
      LedMatch(lead, log, source);
      AppendSlice(log, source, m.prevIndex, m.prevTerm, m.entries);
      LedPrefix(lead, source, m.prevIndex + 1 + |m.entries|);
    }
  }

  // ---- one step ----

  /** What a step may do: one node changes to a led log, and the recorded logs grow. */
  ghost predicate Moves(c: Cluster, c': Cluster, i: int) {
    && 0 <= i < |c.nodes| == |c'.nodes|
    && (forall j :: 0 <= j < |c.nodes| && j != i ==> c'.nodes[j] == c.nodes[j])
    && c.hist.wins <= c'.hist.wins
    && Grows(c.hist.lead, c'.hist.lead)
    && c'.hist.lead.Keys <= WonTerms(c'.hist.wins)
    && (forall t :: t in c'.hist.lead ==> (t in c.hist.lead && c'.hist.lead[t] == c.hist.lead[t])
                                          || ((i, t) in c'.hist.wins && c'.hist.lead[t] == c'.nodes[i].log))
    && Leads(c', i)
    && Led(c'.hist.lead, c'.nodes[i].log)
    && (forall p :: p in c'.net ==> p in c.net || CutFrom(c'.nodes[i], p.msg))
  }

  lemma MovesKeep(c: Cluster, c': Cluster, i: int)
    requires MatchInv(c) && ElectionInv(c') && Moves(c, c', i)
    ensures MatchInv(c')
  {
    var lead, lead' := c.hist.lead, c'.hist.lead;
    forall j | 0 <= j < |c.nodes| && j != i ensures Leads(c', j) && Led(lead', c'.nodes[j].log) {
      assert Leads(c, j);
      LedGrows(lead, lead', c.nodes[j].log);
      if c.nodes[j].role.Leader? && (i, c.nodes[j].term) in c'.hist.wins {
        OneWinner(c', i, j, c.nodes[j].term);
      }
    }
    forall t | t in lead' ensures Led(lead', lead'[t]) {
      if t in lead { LedGrows(lead, lead', lead[t]); }
    }
    forall p | p in c'.net && p.msg.AppendRequest? ensures LedRequest(lead', p.msg) {
      if p in c.net { LedRequestGrows(lead, lead', p.msg); } else { SliceIsLed(lead', c'.nodes[i].log, p.msg); }
    }
  }

  /** The node after a step whose log does not change and that neither wins nor raises a leader. */
  ghost predicate Still(n: Node, m: Node) {
    && m.log == n.log
    && (m.role.Leader? ==> n.role.Leader? && m.term == n.term)
  }

  lemma StillMoves(c: Cluster, i: int, used: multiset<Packet>, o: Outcome, h: History)
    requires MatchInv(c) && 0 <= i < |c.nodes| && Still(c.nodes[i], o.node)
    requires h.wins == c.hist.wins
    requires h.lead == if o.node.role.Leader? then c.hist.lead[o.node.term := o.node.log] else c.hist.lead
    requires forall p :: p in o.sent ==> CutFrom(o.node, p.msg)
    ensures Moves(c, Cluster(c.nodes[i := o.node], c.net - used + o.sent, h), i)
  {
    assert Leads(c, i);
    assert h.lead == c.hist.lead;
  }

  lemma StillAct(n: Node, a: Action)
    requires a.VoteCallback? ==> n.voteTimers > 0
    requires a.Receive? ==> !RaisesLeader(n, a.msg) && !a.msg.AppendRequest?
    requires !a.ClientPut? && !a.ClientCommit? && !Wins(n, Act(n, a).node)
    ensures Still(n, Act(n, a).node)
  {
    hide ApplyRange, MajoritySynced, Broadcast, BumpAll, CanSend;
    if !IsPassive(a) {
      ElectionActions(n, a);
    }
  }

  lemma StillNext(c: Cluster, i: int, a: Action)
    requires ShapeInv(c) && MatchInv(c) && Enabled(c, Do(i, a))
    requires Still(c.nodes[i], Act(c.nodes[i], a).node)
    ensures Moves(c, Next(c, Do(i, a)), i)
  {
    hide Act, MatchInv, WellFormed, Moves, CutFrom, Given, Tallied;
    var n := c.nodes[i];
    assert NodeShape(n, i, |c.nodes|);
    SentIsCut(n, |c.nodes|, a);
    StillMoves(c, i, Used(i, a), Act(n, a), Observe(c.hist, n, a, Act(n, a).node));
  }

  /** A new leader records its log under a term nobody has led. */
  lemma WinMoves(c: Cluster, c': Cluster, i: int)
    requires MatchInv(c) && ElectionInv(c') && 0 <= i < |c.nodes| == |c'.nodes| && c'.net <= c.net
    requires c'.nodes[i].log == c.nodes[i].log && c'.nodes == c.nodes[i := c'.nodes[i]]
    requires (i, c'.nodes[i].term) !in c.hist.wins
    requires c'.hist.wins == c.hist.wins + {(i, c'.nodes[i].term)}
    requires c'.hist.lead == c.hist.lead[c'.nodes[i].term := c'.nodes[i].log]
    ensures Moves(c, c', i)
  {
    var t := c'.nodes[i].term;
    if t in c.hist.lead {
      var w :| w in c.hist.wins && w.1 == t;
      OneWinner(c', i, w.0, t);
    }
    assert t !in c.hist.lead;
    LedGrows(c.hist.lead, c'.hist.lead, c.nodes[i].log);
    forall u | u in c'.hist.lead ensures u in WonTerms(c'.hist.wins) {
      if u == t { assert (i, t) in c'.hist.wins; } else { assert u in WonTerms(c.hist.wins); }
    }
  }

  lemma WinNext(c: Cluster, i: int, a: Action)
    requires ShapeInv(c) && ElectionInv(c) && MatchInv(c) && Enabled(c, Do(i, a))
    requires Wins(c.nodes[i], Act(c.nodes[i], a).node)
    ensures Moves(c, Next(c, Do(i, a)), i)
  {
    var c' := Next(c, Do(i, a));
    assert NodeShape(c.nodes[i], i, |c.nodes|);
    WinIsNew(c, Do(i, a), i);
    ElectionNext(c, Do(i, a));
    ElectionActions(c.nodes[i], a);
    WonQuietly(c.nodes[i], a);
    WinMoves(c, c', i);
  }

  lemma WonQuietly(n: Node, a: Action)
    requires a.Receive? && a.msg.VoteResponse?
    ensures Act(n, a).sent == multiset{}
  {
  }

  /** A leader extends its log and the record of its term with it. */
  lemma AddMoves(c: Cluster, i: int, o: Outcome, h: History, e: Entry)
    requires MatchInv(c) && 0 <= i < |c.nodes| && c.nodes[i].role.Leader?
    requires o.node.role.Leader? && o.node.term == c.nodes[i].term == e.term && o.node.log == c.nodes[i].log + [e]
    requires h.wins == c.hist.wins && h.lead == c.hist.lead[o.node.term := o.node.log]
    requires forall p :: p in o.sent ==> CutFrom(o.node, p.msg)
    ensures Moves(c, Cluster(c.nodes[i := o.node], c.net + o.sent, h), i)
  {
    var n := c.nodes[i];
    assert Leads(c, i);
    assert Grows(c.hist.lead, h.lead);
    LedGrows(c.hist.lead, h.lead, n.log);
    forall k | 1 <= k < |o.node.log| ensures LedAt(h.lead, o.node.log, k) {
      if k < |n.log| {
        assert LedAt(h.lead, n.log, k);
        assert o.node.log[..k + 1] == n.log[..k + 1];
      }
    }
  }

  lemma AddNext(c: Cluster, i: int, a: Action)
    requires ShapeInv(c) && MatchInv(c) && Enabled(c, Do(i, a)) && (a.ClientPut? || a.ClientCommit?)
    ensures Moves(c, Next(c, Do(i, a)), i)
  {
    var n, o := c.nodes[i], Act(c.nodes[i], a);
    assert NodeShape(n, i, |c.nodes|);
    if n.role.Leader? {
      SentIsCut(n, |c.nodes|, a);
      assert c.net - Used(i, a) + o.sent == c.net + o.sent;
      AddMoves(c, i, o, Observe(c.hist, n, a, o.node), Last(o.node.log));
    } else {
      StillNext(c, i, a);
    }
  }

  /** A request accepted in a steady run leaves the node a follower with a led log. */
  lemma AcceptMoves(c: Cluster, i: int, used: multiset<Packet>, o: Outcome, h: History, m: Message)
    requires MatchInv(c) && 0 <= i < |c.nodes|
    requires m.AppendRequest? && LedRequest(c.hist.lead, m) && InSync(c.nodes[i].log, m.prevTerm, m.prevIndex)
    requires o.node.log == Append(c.nodes[i].log, m.prevIndex, m.entries) && !o.node.role.Leader?
    requires h.wins == c.hist.wins && h.lead == c.hist.lead
    requires forall p :: p in o.sent ==> CutFrom(o.node, p.msg)
    ensures Moves(c, Cluster(c.nodes[i := o.node], c.net - used + o.sent, h), i)
  {
    AppendLed(c.hist.lead, c.nodes[i].log, m);
  }

  /** A leader extended by a request of its own term extends the record of the term with it. */
  lemma ExtendMoves(c: Cluster, i: int, used: multiset<Packet>, o: Outcome, h: History, m: Message)
    requires MatchInv(c) && 0 <= i < |c.nodes| && c.nodes[i].role.Leader?
    requires m.AppendRequest? && LedRequest(c.hist.lead, m) && InSync(c.nodes[i].log, m.prevTerm, m.prevIndex)
    requires o.node.log == Append(c.nodes[i].log, m.prevIndex, m.entries) && c.nodes[i].log <= o.node.log
    requires o.node.role.Leader? && o.node.term == c.nodes[i].term
    requires h.wins == c.hist.wins && h.lead == c.hist.lead[o.node.term := o.node.log]
    requires forall p :: p in o.sent ==> CutFrom(o.node, p.msg)
    ensures Moves(c, Cluster(c.nodes[i := o.node], c.net - used + o.sent, h), i)
  {
    assert Leads(c, i);
    AppendLed(c.hist.lead, c.nodes[i].log, m);
    assert Grows(c.hist.lead, h.lead);
    LedGrows(c.hist.lead, h.lead, o.node.log);
  }

  /** A leader that takes an append request of its own term keeps its log as a prefix exactly when the
      request fails the consistency test or contradicts no entry the leader has. */
  lemma LeaderAppendOnlyIff(n: Node, m: Message)
    requires n.role.Leader? && m.AppendRequest? && m.term == n.term
    ensures n.log <= Follow(n, m).log <==> !Contradicts(n, m)
  {
    if InSync(n.log, m.prevTerm, m.prevIndex) {
      var k := FirstMissingExists(n.log, m.prevIndex, m.entries);
      AppendIs(n.log, m.prevIndex, m.entries, k);
      var r, at := Append(n.log, m.prevIndex, m.entries), m.prevIndex + 1 + k;
      if k < |m.entries| {
        assert r[at] == m.entries[k];
      }
      if k == |m.entries| || at == |n.log| {
        assert r == n.log + if k < |m.entries| then m.entries[k..] else [];
        forall j | 0 <= j < |m.entries| && m.prevIndex + 1 + j < |n.log|
          ensures n.log[m.prevIndex + 1 + j].term == m.entries[j].term
        {
          assert Present(n.log, m.prevIndex, m.entries, j);
        }
      }
    }
  }

  lemma RequestEffect(n: Node, m: Message)
    requires m.AppendRequest?
    ensures var f := Follow(n, m);
            if m.term >= n.term && InSync(n.log, m.prevTerm, m.prevIndex)
            then && f.log == Append(n.log, m.prevIndex, m.entries)
                 && (f.role.Leader? ==> n.role.Leader? && m.term == n.term == f.term)
            else Still(n, f)
  {
    hide Append, ApplyRange;
  }

  lemma RequestNext(c: Cluster, i: int, a: Action)
    requires ShapeInv(c) && MatchInv(c) && Enabled(c, Do(i, a)) && Steady(c, Do(i, a))
    requires a.Receive? && a.msg.AppendRequest?
    ensures Moves(c, Next(c, Do(i, a)), i)
  {
    hide Follow, Response, Led, LedRequest, Moves, CutFrom, WellFormed, Append, Contradicts;
    var n, o, m := c.nodes[i], Act(c.nodes[i], a), a.msg;
    assert NodeShape(n, i, |c.nodes|);
    Received(c, i, a);
    RequestEffect(n, m);
    if m.term < n.term || !InSync(n.log, m.prevTerm, m.prevIndex) {
      StillNext(c, i, a);
    } else {
      SentIsCut(n, |c.nodes|, a);
      if o.node.role.Leader? {
        LeaderAppendOnlyIff(n, m);
        ExtendMoves(c, i, Used(i, a), o, Observe(c.hist, n, a, o.node), m);
      } else {
        AcceptMoves(c, i, Used(i, a), o, Observe(c.hist, n, a, o.node), m);
      }
    }
  }

  lemma MatchNext(c: Cluster, s: Step)
    requires ShapeInv(c) && ElectionInv(c) && MatchInv(c) && Enabled(c, s) && Steady(c, s)
    ensures MatchInv(Next(c, s))
  {
    match s
    case Drop(p) =>
      MatchDrop(c, p);
    case Do(i, a) =>
      if a.ClientPut? || a.ClientCommit? {
        AddNext(c, i, a);
      } else if a.Receive? && a.msg.AppendRequest? {
        RequestNext(c, i, a);
      } else if Wins(c.nodes[i], Act(c.nodes[i], a).node) {
        WinNext(c, i, a);
      } else {
        StillAct(c.nodes[i], a);
        StillNext(c, i, a);
      }
      ElectionNext(c, s);
      MovesKeep(c, Next(c, s), i);
  }

  lemma MatchDrop(c: Cluster, p: Packet)
    requires MatchInv(c) && p in c.net
    ensures MatchInv(Next(c, Drop(p)))
  {
    var c' := Next(c, Drop(p));
    forall i | 0 <= i < |c'.nodes| ensures Leads(c', i) {
      assert Leads(c, i);
    }
  }

  // ---- whole runs ----

  ghost predicate SteadyRun(states: seq<Cluster>, steps: seq<Step>) {
    IsRun(states, steps) && forall k :: 0 <= k < |steps| ==> Steady(states[k], steps[k])
  }

  lemma MatchInit(c: Cluster)
    requires Init(c)
    ensures MatchInv(c)
  {
  }

  lemma MatchStep(c: Cluster, s: Step, c': Cluster)
    requires ShapeInv(c) && ElectionInv(c) && MatchInv(c) && Enabled(c, s) && Steady(c, s) && c' == Next(c, s)
    ensures MatchInv(c')
  {
    MatchNext(c, s);
  }

  lemma {:induction false} MatchReachable(states: seq<Cluster>, steps: seq<Step>, k: nat)
    requires SteadyRun(states, steps) && k <= |steps|
    ensures MatchInv(states[k])
  {
    hide MatchInv, ShapeInv, ElectionInv, Steady, Next, Enabled;
    if k == 0 {
      MatchInit(states[0]);
    } else {
      MatchReachable(states, steps, k - 1);
      ElectionReachable(states, steps, k - 1);
      RunStep(states, steps, k - 1);
      MatchStep(states[k - 1], steps[k - 1], states[k]);
    }
  }

  /** Log Matching in every state of every steady run. */
  lemma LogMatchingHolds(states: seq<Cluster>, steps: seq<Step>, k: nat, i: int, j: int)
    requires SteadyRun(states, steps) && k <= |steps|
    requires 0 <= i < |states[k].nodes| && 0 <= j < |states[k].nodes|
    ensures Matching(states[k].nodes[i].log, states[k].nodes[j].log)
  {
    MatchReachable(states, steps, k);
    LedMatch(states[k].hist.lead, states[k].nodes[i].log, states[k].nodes[j].log);
  }

  // ---- a condition on receivers alone ----

  /** No leader handles a vote request or append response with a higher term, and append
      responses are handled by leaders only. */
  predicate Prudent(c: Cluster, s: Step)
    requires Enabled(c, s)
  {
    s.Do? && s.a.Receive? ==>
      var n, m := c.nodes[s.i], s.a.msg;
      && (n.role.Leader? && (m.VoteRequest? || m.AppendResponse?) ==> m.term <= n.term)
      && (m.AppendResponse? ==> n.role.Leader?)
  }

  ghost predicate SentByWinners(c: Cluster) {
    forall p :: p in c.net && p.msg.AppendRequest? ==> (p.src, p.msg.term) in c.hist.wins
  }

  /** In a prudent run no leader ever meets a request of its own term, let alone one that contradicts it. */
  lemma PrudentIsSteady(c: Cluster, s: Step)
    requires ShapeInv(c) && ElectionInv(c) && MatchInv(c) && SentByWinners(c)
    requires Enabled(c, s) && Prudent(c, s)
    ensures Steady(c, s)
  {
    if s.Do? && s.a.Receive? && Contradicts(c.nodes[s.i], s.a.msg) {
      NetAfter(c, s.i, s.a);
      var p := Packet(s.a.from, s.i, s.a.msg);
      assert PacketShape(p, |c.nodes|) && Leads(c, s.i);
      OneWinner(c, p.src, p.dst, p.msg.term);
    }
  }

  lemma OnlyLeadersSend(n: Node, a: Action)
    requires a.VoteCallback? ==> n.voteTimers > 0
    requires a.Receive? && a.msg.AppendResponse? ==> n.role.Leader? && a.msg.term <= n.term
    ensures forall p :: p in Act(n, a).sent && p.msg.AppendRequest? ==>
                          n.role.Leader? && p.src == n.id && p.msg.term == n.term
  {
    if !IsPassive(a) {
      ElectionActions(n, a);
    }
  }

  lemma SentByWinnersNext(c: Cluster, s: Step, c': Cluster)
    requires ShapeInv(c) && MatchInv(c) && SentByWinners(c) && Enabled(c, s) && Prudent(c, s) && c' == Next(c, s)
    ensures SentByWinners(c')
  {
    if s.Do? {
      NetAfter(c, s.i, s.a);
      OnlyLeadersSend(c.nodes[s.i], s.a);
      assert NodeShape(c.nodes[s.i], s.i, |c.nodes|) && Leads(c, s.i);
    }
  }

  lemma PrudentStep(c: Cluster, s: Step, c': Cluster)
    requires ShapeInv(c) && ElectionInv(c) && MatchInv(c) && SentByWinners(c)
    requires Enabled(c, s) && Prudent(c, s) && c' == Next(c, s)
    ensures Steady(c, s) && MatchInv(c') && SentByWinners(c')
  {
    PrudentIsSteady(c, s);
    MatchStep(c, s, c');
    SentByWinnersNext(c, s, c');
  }

  ghost predicate PrudentRun(states: seq<Cluster>, steps: seq<Step>) {
    IsRun(states, steps) && forall k :: 0 <= k < |steps| ==> Prudent(states[k], steps[k])
  }

  lemma NothingSentYet(c: Cluster)
    requires Init(c)
    ensures SentByWinners(c)
  {
  }

  lemma {:induction false} PrudentReachable(states: seq<Cluster>, steps: seq<Step>, k: nat)
    requires PrudentRun(states, steps) && k <= |steps|
    ensures MatchInv(states[k]) && SentByWinners(states[k])
    ensures forall j :: 0 <= j < k ==> Steady(states[j], steps[j])
  {
    hide MatchInv, SentByWinners, ShapeInv, ElectionInv, Steady, Prudent, Next, Enabled;
    if k == 0 {
      MatchInit(states[0]);
      NothingSentYet(states[0]);
    } else {
      PrudentReachable(states, steps, k - 1);
      ElectionReachable(states, steps, k - 1);
      RunStep(states, steps, k - 1);
      PrudentStep(states[k - 1], steps[k - 1], states[k]);
    }
  }

  /** Log Matching when leaders never meet a higher term and only leaders handle append responses. */
  lemma LogMatchingPrudent(states: seq<Cluster>, steps: seq<Step>, k: nat, i: int, j: int)
    requires PrudentRun(states, steps) && k <= |steps|
    requires 0 <= i < |states[k].nodes| && 0 <= j < |states[k].nodes|
    ensures SteadyRun(states, steps)
    ensures Matching(states[k].nodes[i].log, states[k].nodes[j].log)
  {
    PrudentReachable(states, steps, |steps|);
    LogMatchingHolds(states, steps, k, i, j);
  }

  // ---- the conditions are exact ----

  /** Every leader leads a term it won. */
  ghost predicate LeadersWon(c: Cluster) {
    forall i :: 0 <= i < |c.nodes| && c.nodes[i].role.Leader? ==> (i, c.nodes[i].term) in c.hist.wins
  }

  predicate StepRaises(c: Cluster, s: Step)
    requires Enabled(c, s)
  {
    s.Do? && s.a.Receive? && RaisesLeader(c.nodes[s.i], s.a.msg)
  }

  ghost predicate RaiseSplit(n: Node, a: Action, m: Node) {
    if a.Receive? && RaisesLeader(n, a.msg) then m.role.Leader? && m.term > n.term && !Wins(n, m)
    else m.role.Leader? ==> Wins(n, m) || (n.role.Leader? && m.term == n.term)
  }

  lemma RaiseRequest(n: Node, from: int, m: Message)
    requires m.AppendRequest?
    ensures RaiseSplit(n, Receive(from, m), Follow(n, m))
  {
    hide Append, ApplyRange, InSync;
  }

  lemma RaiseResponse(n: Node, from: int, m: Message)
    requires m.AppendResponse?
    ensures RaiseSplit(n, Receive(from, m), Trigger(Digest(n, m), m.followerId).node)
  {
    hide ApplyRange, MajoritySynced, CanSend, EntryRequest;
  }

  lemma RaisePassive(n: Node, a: Action)
    requires IsPassive(a)
    ensures RaiseSplit(n, a, Act(n, a).node)
  {
    match a
    case HeartbeatTick =>
    case Receive(from, m) =>
      hide RaiseSplit, Follow, Digest, Trigger;
      if m.AppendRequest? { RaiseRequest(n, from, m); } else { RaiseResponse(n, from, m); }
    case ClientPut(_, _) =>
    case ClientCommit(_) =>
  }

  lemma RaiseEffect(n: Node, a: Action)
    requires a.VoteCallback? ==> n.voteTimers > 0
    ensures RaiseSplit(n, a, Act(n, a).node)
  {
    if IsPassive(a) {
      hide Act;
      RaisePassive(n, a);
    }
  }

  lemma LeadersWonAfter(c: Cluster, i: int, m: Node, c': Cluster)
    requires 0 <= i < |c.nodes| && LeadersWon(c)
    requires c'.nodes == c.nodes[i := m]
    requires c'.hist.wins == c.hist.wins + if Wins(c.nodes[i], m) then {(i, m.term)} else {}
    ensures LeadersWon(c') <==> (m.role.Leader? ==> (i, m.term) in c'.hist.wins)
  {
    assert c'.nodes[i] == m;
  }

  /** Exactly the steps that raise a leader's term break "every leader leads a term it won". */
  lemma LeadersWonIff(c: Cluster, s: Step, c': Cluster)
    requires ShapeInv(c) && ElectionInv(c) && LeadersWon(c) && Enabled(c, s) && c' == Next(c, s)
    ensures LeadersWon(c') <==> !StepRaises(c, s)
  {
    if s.Do? {
      var n, m := c.nodes[s.i], Act(c.nodes[s.i], s.a).node;
      assert NodeShape(n, s.i, |c.nodes|);
      RaiseEffect(n, s.a);
      assert (s.i, m.term) in c.hist.wins ==> WinOk(c, (s.i, m.term));
      LeadersWonAfter(c, s.i, m, c');
    }
  }

  /** Over a whole run: every leader of every state leads a term it won if and only if
      no leader ever takes over a higher term. */
  lemma LeadersWonRun(states: seq<Cluster>, steps: seq<Step>)
    requires IsRun(states, steps)
    ensures (forall k :: 0 <= k < |states| ==> LeadersWon(states[k])) <==>
            (forall k :: 0 <= k < |steps| ==> !StepRaises(states[k], steps[k]))
  {
    if forall k :: 0 <= k < |steps| ==> !StepRaises(states[k], steps[k]) {
      forall k | 0 <= k < |states| ensures LeadersWon(states[k]) {
        UnraisedWon(states, steps, k);
      }
    }
    if forall k :: 0 <= k < |states| ==> LeadersWon(states[k]) {
      forall k | 0 <= k < |steps| ensures !StepRaises(states[k], steps[k]) {
        ElectionReachable(states, steps, k);
        RunStep(states, steps, k);
        LeadersWonIff(states[k], steps[k], states[k + 1]);
      }
    }
  }

  lemma {:induction false} UnraisedWon(states: seq<Cluster>, steps: seq<Step>, k: nat)
    requires IsRun(states, steps) && k <= |steps|
    requires forall j :: 0 <= j < |steps| ==> !StepRaises(states[j], steps[j])
    ensures LeadersWon(states[k])
  {
    if k > 0 {
      UnraisedWon(states, steps, k - 1);
      ElectionReachable(states, steps, k - 1);
      RunStep(states, steps, k - 1);
      LeadersWonIff(states[k - 1], steps[k - 1], states[k]);
    }
  }

  /** While leaders lead terms they won, no two of them are in the same term. */
  lemma OneLeaderPerTerm(c: Cluster, i: int, j: int)
    requires ElectionInv(c) && LeadersWon(c)
    requires 0 <= i < |c.nodes| && 0 <= j < |c.nodes|
    requires c.nodes[i].role.Leader? && c.nodes[j].role.Leader? && c.nodes[i].term == c.nodes[j].term
    ensures i == j
  {
    OneWinner(c, i, j, c.nodes[i].term);
  }

  /** Leader Append-Only: a node that stays leader over a step loses no log entry. */
  ghost predicate LeadersAppend(c: Cluster, c': Cluster) {
    forall i :: 0 <= i < |c.nodes| && i < |c'.nodes| && c.nodes[i].role.Leader? && c'.nodes[i].role.Leader? ==>
                  c.nodes[i].log <= c'.nodes[i].log
  }

  predicate StepContradicts(c: Cluster, s: Step)
    requires Enabled(c, s)
  {
    s.Do? && s.a.Receive? && Contradicts(c.nodes[s.i], s.a.msg)
  }

  /** What one handler does to the log of a node that stays leader. */
  lemma AppendEffect(n: Node, a: Action)
    requires (a.VoteCallback? ==> n.voteTimers > 0) && n.role.Leader?
    ensures var m := Act(n, a).node;
            if a.Receive? && Contradicts(n, a.msg) then m.role.Leader? && !(n.log <= m.log)
            else m.role.Leader? ==> n.log <= m.log
  {
    if !IsPassive(a) {
      ElectionActions(n, a);
    } else if a.Receive? && a.msg.AppendRequest? {
      hide Follow, Response, Append, Contradicts;
      RequestEffect(n, a.msg);
      LeaderStays(n, a.msg);
      if a.msg.term == n.term {
        LeaderAppendOnlyIff(n, a.msg);
      }
    } else {
      hide ApplyRange, MajoritySynced, Broadcast, BumpAll, CanSend, Ready, EntryRequest;
    }
  }

  lemma LeaderStays(n: Node, m: Message)
    requires m.AppendRequest?
    ensures n.role.Leader? && m.term == n.term ==> Follow(n, m).role.Leader?
    ensures Contradicts(n, m) ==> n.role.Leader? && m.term == n.term
  {
    hide Append, ApplyRange;
  }

  /** Exactly the steps that contradict a leader break Leader Append-Only. */
  lemma LeadersAppendIff(c: Cluster, s: Step, c': Cluster)
    requires Enabled(c, s) && c' == Next(c, s)
    ensures LeadersAppend(c, c') <==> !StepContradicts(c, s)
  {
    hide Act, Contradicts;
    if s.Do? && c.nodes[s.i].role.Leader? {
      AppendEffect(c.nodes[s.i], s.a);
      assert c'.nodes[s.i] == Act(c.nodes[s.i], s.a).node;
    } else if s.Do? {
      NoLeaderNoContradiction(c.nodes[s.i]);
    }
  }

  lemma NoLeaderNoContradiction(n: Node)
    requires !n.role.Leader?
    ensures forall m :: !Contradicts(n, m)
  {
  }

  /** Every leader leads a term it won, and none loses an entry while it leads. */
  ghost predicate LeadersSound(states: seq<Cluster>) {
    && (forall k :: 0 <= k < |states| ==> LeadersWon(states[k]))
    && (forall k :: 0 <= k < |states| - 1 ==> LeadersAppend(states[k], states[k + 1]))
  }

  /** Over a whole run: leaders lead terms they won and only append if and only if no step raises or
      contradicts a leader. */
  lemma SteadyIff(states: seq<Cluster>, steps: seq<Step>)
    requires IsRun(states, steps)
    ensures LeadersSound(states) <==> SteadyRun(states, steps)
  {
    hide LeadersWon, LeadersAppend, RaisesLeader, Contradicts, Next, Enabled, Init;
    LeadersWonRun(states, steps);
    forall k | 0 <= k < |steps|
      ensures LeadersAppend(states[k], states[k + 1]) <==> !StepContradicts(states[k], steps[k])
    {
      RunStep(states, steps, k);
      LeadersAppendIff(states[k], steps[k], states[k + 1]);
    }
    if LeadersSound(states) {
      forall k | 0 <= k < |steps| ensures Steady(states[k], steps[k]) {
        assert LeadersAppend(states[k], states[k + 1]);
        assert !StepRaises(states[k], steps[k]) && !StepContradicts(states[k], steps[k]);
      }
    }
    if SteadyRun(states, steps) {
      forall k | 0 <= k < |steps|
        ensures !StepRaises(states[k], steps[k]) && LeadersAppend(states[k], states[k + 1])
      {
        assert Steady(states[k], steps[k]);
      }
    }
  }

  /** Log Matching from what leaders do alone: they lead terms they won, and they only append. */
  lemma LogMatchingOfLeaders(states: seq<Cluster>, steps: seq<Step>, k: nat, i: int, j: int)
    requires IsRun(states, steps) && LeadersSound(states) && k <= |steps|
    requires 0 <= i < |states[k].nodes| && 0 <= j < |states[k].nodes|
    ensures Matching(states[k].nodes[i].log, states[k].nodes[j].log)
  {
    SteadyIff(states, steps);
    LogMatchingHolds(states, steps, k, i, j);
  }
}
