/** One cluster node as a value, and what each of its handlers does to it. */
module NodeSteps {
  import opened Types
  import opened Logs

  datatype Role = Leader | Follower | Candidate

  /** `voteTimers` counts the delayed vote callbacks not fired yet. The last three fields
      record what the node handed on: entries given to the message queue, entries given
      to the storage writer, and the values the commit index went through. */
  datatype Node = Node(
    id: int, total: int,
    role: Role, term: int, leader: int, votedFor: int, votes: int, voteTimers: nat,
    log: seq<Entry>, commit: int,
    nextIndex: map<int, int>, matched: map<int, int>, pending: map<int, int>,
    applied: seq<Entry>, stored: seq<Entry>, advances: seq<int>)

  datatype Outcome = Outcome(node: Node, sent: multiset<Packet>)

  datatype Action =
    | VoteTick(expired: bool)
    | VoteCallback
    | HeartbeatTick
    | Receive(from: int, msg: Message)
    | ClientPut(id: int, text: string)
    | ClientCommit(id: int)

  /** The node ids of a cluster. */
  function Ids(total: int): (s: set<int>)
    ensures forall i :: i in s <==> 0 <= i < total
    ensures total >= 0 ==> |s| == total
    decreases total
  {
    if total <= 0 then {} else Ids(total - 1) + {total - 1}
  }

  function Others(total: int, id: int): set<int> {
    Ids(total) - {id}
  }

  /** `votes` is left uninitialised by the constructor, so any value may be there. */
  function InitialNode(id: int, total: int, votes: int): Node {
    Node(id, total, Candidate, 0, NOBODY, NOBODY, votes, 0, [SENTINEL], 0,
         map i | i in Others(total, id) :: 1, map i | i in Others(total, id) :: 0, map[],
         [], [], [])
  }

  function Quiet(n: Node): Outcome {
    Outcome(n, multiset{})
  }

  function Reply(n: Node, dst: int, msg: Message): Outcome {
    Outcome(n, multiset{Packet(n.id, dst, msg)})
  }

  function Broadcast(id: int, total: int, msg: Message): multiset<Packet> {
    multiset(set i | i in Others(total, id) :: Packet(id, i, msg))
  }

  // ---- timers ----

  function OnVoteTick(n: Node, expired: bool): Outcome {
    var m := if n.role.Follower? && expired then n.(role := Candidate) else n;
    Quiet(if m.role.Candidate?
          then m.(term := m.term + 1, votedFor := NOBODY, votes := 0, voteTimers := m.voteTimers + 1)
          else m)
  }

  function OnVoteCallback(n: Node): Outcome
    requires n.voteTimers > 0
  {
    var m := n.(voteTimers := n.voteTimers - 1);
    if n.votedFor != NOBODY then Quiet(m) else
      Outcome(m.(votedFor := n.id, votes := n.votes + 1),
              Broadcast(n.id, n.total, VoteRequest(n.term, n.id, Last(n.log).index, Last(n.log).term)))
  }

  function Heartbeat(n: Node): Message {
    AppendRequest(n.term, n.id, Last(n.log).index, Last(n.log).term, [], n.commit)
  }

  function BumpAll(pending: map<int, int>, who: set<int>): map<int, int> {
    map i | i in pending.Keys + who :: Get(pending, i) + if i in who then 1 else 0
  }

  function OnHeartbeatTick(n: Node): Outcome {
    if !n.role.Leader? then Quiet(n) else
      Outcome(n.(pending := BumpAll(n.pending, Others(n.total, n.id))), Broadcast(n.id, n.total, Heartbeat(n)))
  }

  // ---- replication ----

  predicate Sendable(n: Node, f: int) {
    1 <= Get(n.nextIndex, f) <= |n.log| - 1
  }

  /** The gate in front of entry-carrying requests. */
  predicate CanSend(n: Node, f: int) {
    Sendable(n, f) && Get(n.pending, f) < MAX_PENDING_APPEND
  }

  function EntryRequest(n: Node, f: int): Message
    requires Sendable(n, f)
  {
    var next := Get(n.nextIndex, f);
    AppendRequest(n.term, n.id, next - 1, n.log[next - 1].term, [n.log[next]], n.commit)
  }

  /** Sends the next entry to one follower; looking up the follower creates its slot. */
  function Trigger(n: Node, f: int): Outcome {
    var m := n.(nextIndex := n.nextIndex[f := Get(n.nextIndex, f)]);
    if CanSend(n, f)
    then Outcome(m.(pending := m.pending[f := Get(m.pending, f) + 1]),
                 multiset{Packet(n.id, f, EntryRequest(n, f))})
    else Quiet(m)
  }

  function Ready(n: Node): set<int> {
    set f | f in n.nextIndex && CanSend(n, f)
  }

  function TriggerAll(n: Node): Outcome {
    Outcome(n.(pending := BumpAll(n.pending, Ready(n))),
            multiset(set f | f in Ready(n) :: Packet(n.id, f, EntryRequest(n, f))))
  }

  function AddEntry(n: Node, id: int, operation: int, text: string): Outcome {
    if !n.role.Leader? then Quiet(n) else
      TriggerAll(n.(log := n.log + [Entry(|n.log|, n.term, id, operation, text)]))
  }

  /** The entries with index in [from, to) that the log really has, without the sentinel; the rest are skipped. */
  function ApplyRange(log: seq<Entry>, from: int, to: int): seq<Entry> {
    var start, stop := if from < 1 then 1 else from, if to < |log| then to else |log|;
    if start < stop then log[start..stop] else []
  }

  /** Applies up to index `to`. Only the entry at the new commit index goes to storage. */
  function CommitTo(n: Node, to: int): Node {
    n.(applied := n.applied + ApplyRange(n.log, n.commit + 1, to + 1),
       commit := to,
       stored := n.stored + ApplyRange(n.log, to, to + 1),
       advances := n.advances + [to])
  }

  function FollowerCommit(n: Node, leaderCommit: int): Node {
    if n.commit < leaderCommit < |n.log| then CommitTo(n, leaderCommit) else n
  }

  /** Role, term and leader after a request that is not out of date. */
  function Accept(n: Node, m: Message): Node
    requires m.AppendRequest?
  {
    var role := if n.role.Candidate? || (n.role.Leader? && m.term > n.term) then Follower else n.role;
    n.(role := role, term := m.term, leader := m.leaderId)
  }

  /** The node after an append request. */
  function Follow(n: Node, m: Message): Node
    requires m.AppendRequest?
  {
    if m.term < n.term then n.(leader := NOBODY) else
      var a := Accept(n, m);
      if !InSync(a.log, m.prevTerm, m.prevIndex) then a else
        var b := FollowerCommit(a, m.leaderCommit);
        b.(log := Append(b.log, m.prevIndex, m.entries))
  }

  /** The response to an append request, sent by the node it has become. */
  function Response(n: Node, m: Message): Message
    requires m.AppendRequest?
  {
    if m.term < n.term || !InSync(n.log, m.prevTerm, m.prevIndex)
    then AppendResponse(Follow(n, m).term, n.id, false, -1)
    else AppendResponse(m.term, n.id, true, Last(Follow(n, m).log).index)
  }

  function OnAppendRequest(n: Node, m: Message): Outcome
    requires m.AppendRequest?
  {
    Reply(Follow(n, m), m.leaderId, Response(n, m))
  }

  function SyncedWith(matched: map<int, int>, index: int): set<int> {
    set f | f in matched && matched[f] >= index
  }

  predicate MajoritySynced(n: Node, index: int) {
    |SyncedWith(n.matched, index)| + 1 > n.total / 2
  }

  function LeaderCommit(n: Node, index: int): Node {
    if n.commit < index && MajoritySynced(n, index) then CommitTo(n, index) else n
  }

  /** What an append response changes before the next entry is sent. */
  function Digest(n: Node, m: Message): Node
    requires m.AppendResponse?
  {
    var f := m.followerId;
    var a := n.(pending := n.pending[f := Max(0, Get(n.pending, f) - 1)]);
    if m.success then
      var b := LeaderCommit(a.(matched := a.matched[f := m.lastSynced]), m.lastSynced);
      b.(nextIndex := b.nextIndex[f := m.lastSynced + 1])
    else if m.term > n.term then
      a.(term := m.term)
    else
      a.(nextIndex := a.nextIndex[f := Max(1, Get(a.nextIndex, f) - 1)])
  }

  function OnAppendResponse(n: Node, m: Message): Outcome
    requires m.AppendResponse?
  {
    Trigger(Digest(n, m), m.followerId)
  }

  // ---- election ----

  predicate Refuses(n: Node, m: Message)
    requires m.VoteRequest?
  {
    m.term < n.term || (m.term == n.term && n.votedFor != NOBODY && n.votedFor != m.candidateId)
  }

  predicate Grants(n: Node, m: Message)
    requires m.VoteRequest?
  {
    !Refuses(n, m) && !n.role.Leader?
  }

  function OnVoteRequest(n: Node, m: Message): Outcome
    requires m.VoteRequest?
  {
    if Refuses(n, m) then Reply(n, m.candidateId, VoteResponse(m.term, 0)) else
      var a := if m.term > n.term then n.(term := m.term, votes := 0) else n;
      if n.role.Leader? then Quiet(a)
      else Reply(a.(votedFor := m.candidateId), m.candidateId, VoteResponse(m.term, 1))
  }

  /** The response is looked at: the node still stands for election and it is not a refusal or stale. */
  predicate Considers(n: Node, m: Message)
    requires m.VoteResponse?
  {
    n.role.Candidate? && m.granted != 0 && m.term >= n.term
  }

  function OnVoteResponse(n: Node, m: Message): Outcome
    requires m.VoteResponse?
  {
    if !Considers(n, m) then Quiet(n) else
      var a := if m.granted == 1 then n.(votes := n.votes + 1) else n;
      Quiet(if a.votes > a.total / 2 then a.(role := Leader, term := m.term) else a)
  }

  // ---- all handlers ----

  function OnMessage(n: Node, m: Message): Outcome {
    match m
    case AppendRequest(_, _, _, _, _, _) => OnAppendRequest(n, m)
    case AppendResponse(_, _, _, _) => OnAppendResponse(n, m)
    case VoteRequest(_, _, _, _) => OnVoteRequest(n, m)
    case VoteResponse(_, _) => OnVoteResponse(n, m)
  }

  function Act(n: Node, a: Action): Outcome
    requires a.VoteCallback? ==> n.voteTimers > 0
  {
    match a
    case VoteTick(expired) => OnVoteTick(n, expired)
    case VoteCallback => OnVoteCallback(n)
    case HeartbeatTick => OnHeartbeatTick(n)
    case Receive(_, m) => OnMessage(n, m)
    case ClientPut(id, text) => AddEntry(n, id, ADD, text)
    case ClientCommit(id) => AddEntry(n, id, COMMIT, "")
  }

  // ---- frames ----

  /** The action is no part of an election round: votes stay, the term does not drop, a leader
      steps down only for a higher term, and no vote message is sent. */
  ghost predicate Passive(n: Node, o: Outcome) {
    && o.node.id == n.id && o.node.total == n.total
    && o.node.votedFor == n.votedFor && o.node.votes == n.votes && o.node.voteTimers == n.voteTimers
    && o.node.term >= n.term
    && (o.node.role == n.role || (o.node.role.Follower? && (n.role.Leader? ==> o.node.term > n.term)))
    && (forall p :: p in o.sent ==> p.src == n.id && (p.msg.AppendRequest? || p.msg.AppendResponse?))
  }

  predicate IsPassive(a: Action) {
    match a
    case VoteTick(_) => false
    case VoteCallback => false
    case Receive(_, m) => m.AppendRequest? || m.AppendResponse?
    case _ => true
  }

  lemma PassiveHeartbeat(n: Node)
    ensures Passive(n, OnHeartbeatTick(n))
  {
  }

  lemma PassiveAdd(n: Node, id: int, operation: int, text: string)
    ensures Passive(n, AddEntry(n, id, operation, text))
  {
  }

  lemma PassiveRequest(n: Node, m: Message)
    requires m.AppendRequest?
    ensures Passive(n, OnAppendRequest(n, m))
  {
    hide Append, ApplyRange, InSync;
  }

  lemma PassiveResponse(n: Node, m: Message)
    requires m.AppendResponse?
    ensures Passive(n, OnAppendResponse(n, m))
  {
    hide ApplyRange, MajoritySynced;
  }

  lemma PassiveActions(n: Node, a: Action)
    requires IsPassive(a)
    ensures Passive(n, Act(n, a))
  {
    match a
    case HeartbeatTick => PassiveHeartbeat(n);
    case Receive(_, m) => if m.AppendRequest? { PassiveRequest(n, m); } else { PassiveResponse(n, m); }
    case ClientPut(id, text) => PassiveAdd(n, id, ADD, text);
    case ClientCommit(id) => PassiveAdd(n, id, COMMIT, "");
  }

  /** The action leaves everything about replication alone. */
  ghost predicate LogUntouched(n: Node, o: Outcome) {
    && o.node.id == n.id && o.node.total == n.total
    && o.node.term >= n.term
    && o.node.log == n.log && o.node.commit == n.commit
    && o.node.nextIndex == n.nextIndex && o.node.matched == n.matched && o.node.pending == n.pending
    && o.node.applied == n.applied && o.node.stored == n.stored && o.node.advances == n.advances
    && (forall p :: p in o.sent ==> p.src == n.id && (p.msg.VoteRequest? || p.msg.VoteResponse?))
  }

  lemma QuietLogVoteCallback(n: Node)
    requires n.voteTimers > 0
    ensures LogUntouched(n, OnVoteCallback(n))
  {
  }

  lemma QuietLogVoteRequest(n: Node, m: Message)
    requires m.VoteRequest?
    ensures LogUntouched(n, OnVoteRequest(n, m))
  {
    hide Refuses;
  }

  lemma QuietLogVoteResponse(n: Node, m: Message)
    requires m.VoteResponse?
    ensures LogUntouched(n, OnVoteResponse(n, m))
  {
  }

  lemma ElectionActions(n: Node, a: Action)
    requires a.VoteCallback? ==> n.voteTimers > 0
    requires !IsPassive(a)
    ensures LogUntouched(n, Act(n, a))
  {
    match a
    case VoteTick(_) =>
    case VoteCallback => QuietLogVoteCallback(n);
    case Receive(_, m) =>
      if m.VoteRequest? { QuietLogVoteRequest(n, m); } else { QuietLogVoteResponse(n, m); }
  }
}
