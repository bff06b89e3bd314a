/** The node object: its handlers change fields in place and do what the handlers on values do. */
module ClusterNodes {
  import opened Types
  import opened Logs
  import opened NodeSteps
  import opened Queues
  import opened Delivery
  import opened MessageQueues
  import opened ClientManagers
  import opened Storage
  import opened LogFiles
  import opened Restart

  /** Nobody holds a message in `after` who did not hold it in `before`. */
  ghost predicate NothingGiven(before: Queue, after: Queue) {
    forall x :: x in after.consumerOf ==> x in before.consumerOf && after.consumerOf[x] == before.consumerOf[x]
  }

  /** Everything undelivered in `before` is at one of the slots in `after`, and what was delivered stays where it was. */
  ghost predicate HandedOut(before: Queue, after: Queue, slots: seq<int>) {
    && after.undelivered == {} && after.store == before.store && after.committed == before.committed
    && (forall x :: x in before.undelivered ==> x in after.consumerOf && after.consumerOf[x] in slots)
    && (forall x :: x in before.consumerOf ==> x in after.consumerOf && after.consumerOf[x] == before.consumerOf[x])
    && (forall x :: x in after.consumerOf ==> x in before.consumerOf || x in before.undelivered)
  }

  /** The pass started at the slot whose turn it was and went round from there. */
  ghost predicate WentRound(before: Queue, after: Queue, slots: seq<int>, count: int) {
    exists ids :: Passed(before, after, ids, slots, count)
  }

  /** Who holds a message of `ids` in `q` has been written its text. */
  ghost predicate Posted(q: Queue, ids: set<int>, written: seq<Letter>) {
    forall x :: x in ids ==> x in q.consumerOf && x in q.store && Letter(q.consumerOf[x], Handed(x, q.store[x])) in written
  }

  /** Taking the next entry of a log keeps the queue a replay of what was applied, and gives nothing out. */
  lemma ApplyNext(q: Queue, applied: seq<Entry>, e: Entry)
    requires QueueInv(q) && SamePersisted(q, Replay(applied))
    ensures QueueInv(Apply(q, e)) && SamePersisted(Apply(q, e), Replay(applied + [e]))
    ensures NothingGiven(q, Apply(q, e))
  {
    ReplayInv(applied);
    StepSame(q, applied, Log(e));
  }

  /** A delivery pass hands everything out. */
  lemma PassHands(before: Queue, after: Queue, ids: seq<int>, slots: seq<int>, count: int)
    requires QueueInv(before) && Passed(before, after, ids, slots, count)
    ensures HandedOut(before, after, slots)
  {
    SnapshotStored(before, ids);
    hide QueueInv;
    PassEmpties(before, ids, slots, count);
    PassEffect(before, ids, slots, count);
    hide Pass, Distinct;
    forall x | x in before.undelivered ensures x in after.consumerOf && after.consumerOf[x] in slots {
      SnapshotMember(ids, before.undelivered, x);
      var k :| 0 <= k < |ids| && ids[k] == x;
      assert after.consumerOf[x] == Turn(slots, count + k);
    }
    assert Delivered(after) == Delivered(before) + before.undelivered;
  }

  /** And writes everything it hands out. */
  lemma PassPosts(before: Queue, after: Queue, ids: seq<int>, slots: seq<int>, count: int, written: seq<Letter>)
    requires QueueInv(before) && Passed(before, after, ids, slots, count)
    requires forall k :: 0 <= k < |ids| ==> ids[k] in before.store
    ensures Posted(after, before.undelivered, written + Letters(before.store, ids, slots, count))
  {
    SnapshotStored(before, ids);
    hide QueueInv;
    PassEffect(before, ids, slots, count);
    hide Pass, Distinct;
    var letters := Letters(before.store, ids, slots, count);
    forall x | x in before.undelivered
      ensures x in after.consumerOf && x in after.store
      ensures Letter(after.consumerOf[x], Handed(x, after.store[x])) in written + letters
    {
      SnapshotMember(ids, before.undelivered, x);
      var k :| 0 <= k < |ids| && ids[k] == x;
      assert letters[k] == Letter(after.consumerOf[x], Handed(x, after.store[x]));
      assert (written + letters)[|written| + k] == letters[k];
    }
  }

  lemma StoredNext(events: seq<DiskEvent>, entries: seq<Entry>, metadata: int)
    ensures Stored(events + [Store(entries, metadata)]) == Stored(events) + entries
    ensures forall first :: LastMetadata(events + [Store(entries, metadata)], first) == metadata
  {
    var more := events + [Store(entries, metadata)];
    assert more[..|more| - 1] == events;
  }

  /** A delivery pass does not change what is persisted. */
  lemma PassSame(before: Queue, after: Queue, ids: seq<int>, slots: seq<int>, count: int, follower: Queue)
    requires QueueInv(before) && SamePersisted(before, follower) && Passed(before, after, ids, slots, count)
    ensures SamePersisted(after, follower)
  {
    hide QueueInv;
    PassEmpties(before, ids, slots, count);
    forall k | 0 <= k < |ids| ensures ids[k] in before.undelivered {
      assert ids[k] in ids;
    }
    PassEffect(before, ids, slots, count);
  }

  /** A node just started from the entries and the commit index its storage gave back. */
  function Recovered(id: int, total: int, votes: int, loaded: seq<Entry>, commit: int, stored: seq<Entry>): Node {
    InitialNode(id, total, votes).(log := [SENTINEL] + loaded, commit := commit, applied := loaded, stored := stored)
  }

  lemma FirstStart(id: int, total: int, votes: int, stored: seq<Entry>)
    ensures Recovered(id, total, votes, [], 0, stored) == InitialNode(id, total, votes).(stored := stored)
  {
  }

  lemma BumpNext(pending: map<int, int>, who: set<int>, i: int)
    requires i !in who
    ensures Get(BumpAll(pending, who), i) == Get(pending, i)
    ensures BumpAll(pending, who + {i}) == BumpAll(pending, who)[i := Get(pending, i) + 1]
  {
  }

  lemma BumpNobody(pending: map<int, int>)
    ensures BumpAll(pending, {}) == pending
  {
  }

  lemma NobodyElse(total: int, id: int)
    ensures Others(0, id) == {} && (total < 0 ==> Others(total, id) == {})
  {
  }

  lemma OthersNext(i: nat, id: int)
    ensures i !in Others(i, id)
    ensures Others(i + 1, id) == if i == id then Others(i, id) else Others(i, id) + {i}
  {
  }

  ghost function EntryPackets(n: Node, who: set<int>): set<Packet>
    requires forall f :: f in who ==> Sendable(n, f)
  {
    set f | f in who :: Packet(n.id, f, EntryRequest(n, f))
  }

  lemma EntryPacketsNext(n: Node, who: set<int>, f: int)
    requires (forall g :: g in who ==> Sendable(n, g)) && Sendable(n, f) && f !in who
    ensures multiset(EntryPackets(n, who + {f}))
         == multiset(EntryPackets(n, who)) + multiset{Packet(n.id, f, EntryRequest(n, f))}
  {
    hide EntryRequest, Sendable;
    assert EntryPackets(n, who + {f}) == EntryPackets(n, who) + {Packet(n.id, f, EntryRequest(n, f))};
  }

  /** The node, and what it sent, once it has triggered the followers in `done`. */
  ghost function Triggered(n: Node, done: set<int>): Outcome {
    Outcome(n.(pending := BumpAll(n.pending, Ready(n) * done)), multiset(EntryPackets(n, Ready(n) * done)))
  }

  lemma TriggeredNext(n: Node, done: set<int>, f: int)
    requires f in n.nextIndex && f !in done
    ensures var o, next := Triggered(n, done), Triggered(n, done + {f});
            var t := Trigger(o.node, f);
            next.node == t.node && next.sent == o.sent + t.sent
  {
    hide BumpAll, EntryPackets;
    var o, who, more := Triggered(n, done), Ready(n) * done, Ready(n) * (done + {f});
    BumpNext(n.pending, who, f);
    assert n.nextIndex[f := Get(n.nextIndex, f)] == n.nextIndex;
    if CanSend(n, f) {
      assert more == who + {f};
      EntryPacketsNext(n, who, f);
    } else {
      assert more == who;
    }
  }

  lemma TriggeredEnds(n: Node)
    ensures Triggered(n, {}) == Outcome(n, multiset{})
    ensures Triggered(n, n.nextIndex.Keys) == TriggerAll(n)
  {
    assert Ready(n) * n.nextIndex.Keys == Ready(n);
    BumpNobody(n.pending);
  }

  class ClusterNode {
    const id: int
    const total: int
    const partition: int
    var role: Role
    var term: int
    var leader: int
    var votedFor: int
    var votes: int
    var voteTimers: nat
    var log: seq<Entry>
    var commit: int
    var nextIndex: map<int, int>
    var matched: map<int, int>
    var pending: map<int, int>
    const queue: MessageQueue
    const clients: ClientManager
    const storage: ClusterNodeStorage
    /** Packets handed to the cluster connections. */
    var outbox: multiset<Packet>
    ghost var applied: seq<Entry>
    ghost var stored: seq<Entry>
    ghost var advances: seq<int>

    ghost function View(): Node
      reads this
    {
      Node(id, total, role, term, leader, votedFor, votes, voteTimers, log, commit,
           nextIndex, matched, pending, applied, stored, advances)
    }

    /** The queue is what a replay of the applied entries gives, up to deliveries. */
    ghost predicate QueueOk()
      reads this`applied, queue
    {
      QueueInv(queue.View()) && SamePersisted(queue.View(), Replay(applied))
    }

    /** The storage writer was given what the node recorded, and the commit index with it. */
    ghost predicate StorageOk()
      reads this`stored, this`commit, this`advances, storage, storage.log
    {
      && storage.Valid() && Stored(storage.handed) == stored
      && (advances != [] ==> LastMetadata(storage.handed, storage.start.metadata) == commit)
    }

    ghost predicate Valid()
      reads this`log, this`commit, this`applied, this`stored, this`advances, queue, clients, storage, storage.log
    {
      |log| > 0 && commit >= 0 && clients.Valid() && QueueOk() && StorageOk()
    }

    /** Starts a node from what its storage holds: the entries read back become the log and are
        applied again; nothing is delivered. */
    constructor (id: int, total: int, partition: int,
                 queue: MessageQueue, clients: ClientManager, storage: ClusterNodeStorage, votes: int)
      requires queue.View() == EMPTY && clients.Valid() && storage.Valid()
      requires LoadFrom(storage.log.bytes, [], []).Loaded?
      modifies queue
      ensures this.queue == queue && this.clients == clients && this.storage == storage
      ensures var d := storage.Contents();
              && View() == Recovered(id, total, votes, LoadEntries(storage.codec, d), LoadCommit(d), Stored(storage.handed))
              && (Valid() <==> LoadCommit(d) >= 0)
      ensures storage.log.bytes == [] && storage.metadataFile == [] ==>
                commit == 0 && log == [SENTINEL] && Valid()
                && View() == InitialNode(id, total, votes).(stored := Stored(storage.handed))
      ensures outbox == multiset{} && forall x :: x !in queue.consumerOf
    {
      hide DiskAfter, LoadEntries, LoadCommit, Stored, QueueInv, SamePersisted, LoadFrom, Replay, Others;
      NothingToLoad(storage.codec, storage.Contents());
      FirstStart(id, total, votes, Stored(storage.handed));
      var loaded := storage.LoadLogEntryFromFile();
      this.id, this.total, this.partition := id, total, partition;
      this.queue, this.clients, this.storage := queue, clients, storage;
      role, term, leader, votedFor := Candidate, 0, NOBODY, NOBODY;
      this.votes, voteTimers := votes, 0;
      nextIndex := map i | i in Others(total, id) :: 1;
      matched := map i | i in Others(total, id) :: 0;
      pending, outbox := map[], multiset{};
      log := [SENTINEL] + loaded;
      commit := LoadCommit(storage.Contents());
      applied, stored, advances := [], Stored(storage.handed), [];
      new;
      EmptyReplay();
      ReplayLog();
    }

    method ReplayLog()
      requires QueueOk() && applied == [] && |log| > 0
      modifies queue, this`applied
      ensures QueueOk() && applied == log[1..] && NothingGiven(old(queue.View()), queue.View())
    {
      hide QueueInv, SamePersisted, Replay;
      for i := 1 to |log|
        invariant QueueOk() && applied == log[1..i] && NothingGiven(old(queue.View()), queue.View())
      {
        CommitLogEntry(i);
      }
    }

    method Send(dst: int, msg: Message)
      modifies this`outbox
      ensures outbox == old(outbox) + multiset{Packet(id, dst, msg)}
    {
      outbox := outbox + multiset{Packet(id, dst, msg)};
    }

    // ---- the log ----

    method AppendLogEntries(prevIndex: int, entries: seq<Entry>)
      requires 0 <= prevIndex < |log|
      modifies this`log
      ensures log == Append(old(log), prevIndex, entries) && |log| > prevIndex
    {
      for i := 0 to |entries|
        invariant |log| > prevIndex
        invariant AppendFrom(log, prevIndex, entries, i) == Append(old(log), prevIndex, entries)
      {
        var at := i + prevIndex + 1;
        if at > |log| - 1 {
          log := log + [entries[i]];
        } else if log[at].term == entries[i].term {
        } else {
          log := log[..at];
          log := log + [entries[i]];
        }
      }
    }

    method TriggerEntryUpdate(f: int)
      modifies this`nextIndex, this`pending, this`outbox
      ensures View() == Trigger(old(View()), f).node
      ensures outbox == old(outbox) + Trigger(old(View()), f).sent
    {
      var next := Get(nextIndex, f);
      nextIndex := nextIndex[f := next];
      if next >= 1 && next <= |log| - 1 {
        var msg := AppendRequest(term, id, next - 1, log[next - 1].term, [log[next]], commit);
        if Get(pending, f) < MAX_PENDING_APPEND {
          Send(f, msg);
          pending := pending[f := Get(pending, f) + 1];
        }
      }
    }

    // ---- the queue ----

    method CommitLogEntry(i: int)
      requires QueueOk()
      modifies queue, this`applied
      ensures QueueOk()
      ensures applied == old(applied) + if 0 < i < |log| then [log[i]] else []
      ensures queue.View() == if 0 < i < |log| then Apply(old(queue.View()), log[i]) else old(queue.View())
      ensures NothingGiven(old(queue.View()), queue.View())
    {
      hide QueueInv, SamePersisted, Replay, Insert, Commit;
      if i <= 0 || i >= |log| {
        return;
      }
      ApplyNext(queue.View(), applied, log[i]);
      if log[i].operation == ADD {
        var _ := queue.InsertMessage(log[i].id, log[i].message);
      } else if log[i].operation == COMMIT {
        var _ := queue.CommitMessage(log[i].id);
      }
      applied := applied + [log[i]];
    }

    /** The node leads and its partition has somebody to deliver to. */
    ghost predicate Delivers()
      reads this`role, clients`consumers
    {
      role.Leader? && clients.consumers != map[] && SlotsOf(clients.consumers, partition) != []
    }

    ghost function Slots(): seq<int>
      reads clients`consumers
    {
      SlotsOf(clients.consumers, partition)
    }

    /** A delivery pass, if this node leads and has somebody to deliver to; otherwise nothing. */
    method DeliverUndelivered()
      requires QueueOk() && clients.Valid()
      modifies queue, clients`deliverCount, clients`written
      ensures QueueOk() && clients.Valid() && old(clients.written) <= clients.written
      ensures Delivers() ==> HandedOut(old(queue.View()), queue.View(), Slots())
      ensures Delivers() ==>
                WentRound(old(queue.View()), queue.View(), Slots(), Get(old(clients.deliverCount), partition))
      ensures Delivers() && partition in clients.consumers ==>
                && Posted(queue.View(), old(queue.undelivered), clients.written)
                && clients.deliverCount == Turned(old(clients.deliverCount), partition, |old(queue.undelivered)|)
      ensures !(Delivers() && partition in clients.consumers) ==>
                clients.written == old(clients.written) && clients.deliverCount == old(clients.deliverCount)
      ensures !Delivers() ==> queue.View() == old(queue.View())
    {
      hide QueueInv, SamePersisted, Replay, Passed, HandedOut, Posted, Letters, Turned;
      ghost var before, count := queue.View(), Get(clients.deliverCount, partition);
      NoTurn(clients.deliverCount, partition);
      ghost var ids := TriggerMessageDelivery(role.Leader?, partition, queue, clients);
      if Delivers() {
        PassSame(before, queue.View(), ids, Slots(), count, Replay(applied));
        PassHands(before, queue.View(), ids, Slots(), count);
        PassPosts(before, queue.View(), ids, Slots(), count, old(clients.written));
      }
    }

    /** Entries were applied, giving queue `applied`, when `written` was written and the counters stood at `counts`. A node
        that delivers has then handed everything out in turn, and written it if the partition was opened; any
        other node has given out and written nothing. */
    ghost predicate Dealt(applied: Queue, written: seq<Letter>, counts: map<int, int>)
      reads this`role, queue, clients
    {
      && (Delivers() ==> HandedOut(applied, queue.View(), Slots())
                         && WentRound(applied, queue.View(), Slots(), Get(counts, partition)))
      && (Delivers() && partition in clients.consumers ==> Posted(queue.View(), applied.undelivered, clients.written))
      && (!Delivers() ==> queue.View() == applied && clients.written == written && clients.deliverCount == counts)
    }

    /** Applies the entries in [start, stop), then delivers if this node leads. */
    method CommitLogEntries(start: int, stop: int)
      requires QueueOk() && clients.Valid()
      modifies queue, clients`deliverCount, clients`written, this`applied
      ensures QueueOk() && clients.Valid()
      ensures applied == old(applied) + ApplyRange(log, start, stop)
      ensures Dealt(ApplyAll(old(queue.View()), ApplyRange(log, start, stop)), old(clients.written), old(clients.deliverCount))
      ensures Delivers() ==> queue.undelivered == {}
      ensures !Delivers() ==> NothingGiven(old(queue.View()), queue.View())
    {
      hide QueueInv, SamePersisted, Replay, NothingGiven, HandedOut, Posted, WentRound, ApplyRange;
      var i := start;
      NothingGivenYet(queue.View());
      NothingToApply(log, start, stop);
      while i < stop
        invariant QueueOk() && start <= i && (i == start || i <= stop)
        invariant applied == old(applied) + ApplyRange(log, start, i)
        invariant queue.View() == ApplyAll(old(queue.View()), ApplyRange(log, start, i))
        invariant NothingGiven(old(queue.View()), queue.View())
        modifies queue, this`applied
      {
        NothingGivenNext(old(queue.View()), queue.View());
        ApplyRangeNext(log, start, i);
        ApplyAllNext(old(queue.View()), ApplyRange(log, start, i), ApplyRange(log, start, i + 1));
        CommitLogEntry(i);
        i := i + 1;
      }
      DeliverUndelivered();
      if Delivers() {
        NothingLeft(ApplyAll(old(queue.View()), ApplyRange(log, start, stop)), queue.View(), Slots());
      }
    }

    /** If the commit index moved on from `before`, what was applied since the first `done` entries went to queue `was` and
        was dealt out: nothing is left undelivered if the node delivers, and nothing was given out if it does not.
        If it did not move, queue and consumers were left alone. */
    ghost predicate Settled(before: int, done: nat, was: Queue, written: seq<Letter>, counts: map<int, int>)
      reads this`role, this`commit, this`applied, queue, clients
    {
      if commit != before
      then && done <= |applied| && Dealt(ApplyAll(was, applied[done..]), written, counts)
           && (Delivers() ==> queue.undelivered == {})
           && (!Delivers() ==> NothingGiven(was, queue.View()))
      else |applied| == done && queue.View() == was && clients.written == written && clients.deliverCount == counts
    }

    lemma NothingHappened()
      ensures Settled(commit, |applied|, queue.View(), clients.written, clients.deliverCount)
    {
    }

    /** Moves the commit index up: applies what lies between, delivers, and hands the entry at the new index to storage. */
    method AdvanceCommit(to: int)
      requires QueueOk() && clients.Valid() && StorageOk() && 0 <= commit < to < |log|
      modifies queue, clients`deliverCount, clients`written, storage,
               this`applied, this`commit, this`stored, this`advances
      ensures QueueOk() && clients.Valid() && StorageOk()
      ensures View() == CommitTo(old(View()), to)
      ensures Settled(old(commit), |old(applied)|, old(queue.View()), old(clients.written), old(clients.deliverCount))
    {
      hide QueueInv, SamePersisted, Replay, DiskAfter, Stored, LastMetadata, Dealt, NothingGiven, ApplyRange, ApplyAll;
      AppliesOne(log, to);
      Suffix(applied, ApplyRange(log, commit + 1, to + 1));
      StoredNext(storage.handed, log[to..to + 1], to);
      CommitLogEntries(commit + 1, to + 1);
      commit := to;
      storage.StoreLogEntriesAndMetadata(log, commit, to + 1, commit);
      stored := stored + log[to..to + 1];
      advances := advances + [to];
    }

    /** Nothing stays at the client unless it is given it anew: what it held waits again, or a node that delivers gives it
        to a slot and writes it there; what others hold stays with them. */
    method ConsumerDisconnected(client: int)
      requires Valid()
      modifies queue, clients`deliverCount, clients`written
      ensures Valid()
      ensures !Delivers() || client !in Slots() ==>
                forall x :: x in queue.consumerOf ==> queue.consumerOf[x] != client
      ensures forall x :: x in old(queue.consumerOf) && old(queue.consumerOf[x]) == client ==>
                            if Delivers() then x in queue.consumerOf && queue.consumerOf[x] in Slots() else x in queue.undelivered
      ensures forall x :: x in old(queue.consumerOf) && old(queue.consumerOf[x]) != client ==>
                            x in queue.consumerOf && queue.consumerOf[x] == old(queue.consumerOf[x])
      ensures Delivers() ==> queue.undelivered == {}
      ensures Delivers() && partition in clients.consumers ==>
                forall x :: x in old(queue.consumerOf) && old(queue.consumerOf[x]) == client ==>
                              && x in queue.consumerOf && x in queue.store
                              && Letter(queue.consumerOf[x], Handed(x, queue.store[x])) in clients.written
      ensures !Delivers() ==> clients.written == old(clients.written)
    {
      hide QueueInv, SamePersisted, Replay, Disconnect, Letters, Turned;
      LeaveSame(queue.View(), applied, client);
      LeaveReleases(queue.View(), client);
      var _ := queue.HandleClientDisconnected(client);
      DeliverUndelivered();
    }

    /** The answer to the client takes a turn; a leader then delivers. */
    method OnClientOpenQueue()
      requires Valid()
      modifies queue, clients`deliverCount, clients`written
      ensures Valid()
      ensures Delivers() ==> HandedOut(old(queue.View()), queue.View(), Slots())
      ensures !Delivers() ==> queue.View() == old(queue.View())
      ensures old(clients.written) +
              (if Listened(clients.consumers, partition)
               then [Letter(Turn(clients.consumers[partition], Max(0, Get(old(clients.deliverCount), partition))),
                            Opened(role.Leader?))]
               else [])
              <= clients.written
      ensures Delivers() && partition in clients.consumers ==> Posted(queue.View(), old(queue.undelivered), clients.written)
      ensures clients.deliverCount ==
              Turned(old(clients.deliverCount), partition,
                     if !Listened(clients.consumers, partition) then 0
                     else 1 + if role.Leader? then |old(queue.undelivered)| else 0)
    {
      hide QueueInv, SamePersisted, Replay, HandedOut, Posted, Turned;
      TurnedTwice(clients.deliverCount, partition, |queue.undelivered|);
      var _ := clients.DeliverOneMessageRoundRobin(partition, Opened(role.Leader?));
      if !role.Leader? {
        return;
      }
      DeliverUndelivered();
    }

    // ---- timers ----

    method Broadcast(msg: Message)
      modifies this`outbox
      ensures outbox == old(outbox) + NodeSteps.Broadcast(id, total, msg)
    {
      outbox := outbox + multiset(set i | i in Others(total, id) :: Packet(id, i, msg));
    }

    method OnVoteTimer(expired: bool)
      modifies this`role, this`term, this`votedFor, this`votes, this`voteTimers
      ensures View() == OnVoteTick(old(View()), expired).node
    {
      if role == Follower && expired {
        role := Candidate;
      }
      if role == Candidate {
        term := term + 1;
        votedFor, votes := NOBODY, 0;
        voteTimers := voteTimers + 1;
      }
    }

    method OnDelayedVote()
      requires |log| > 0 && voteTimers > 0
      modifies this`votedFor, this`votes, this`voteTimers, this`outbox
      ensures View() == OnVoteCallback(old(View())).node
      ensures outbox == old(outbox) + OnVoteCallback(old(View())).sent
    {
      hide NodeSteps.Broadcast, Others;
      voteTimers := voteTimers - 1;
      if votedFor != NOBODY {
        return;
      }
      var msg := VoteRequest(term, id, log[|log| - 1].index, log[|log| - 1].term);
      votedFor := id;
      votes := votes + 1;
      Broadcast(msg);
    }

    method SendHeartbeat()
      requires |log| > 0
      modifies this`pending, this`outbox
      ensures View() == OnHeartbeatTick(old(View())).node
      ensures outbox == old(outbox) + OnHeartbeatTick(old(View())).sent
    {
      hide BumpAll, NodeSteps.Broadcast, Others;
      if role != Leader {
        return;
      }
      Broadcast(AppendRequest(term, id, log[|log| - 1].index, log[|log| - 1].term, [], commit));
      BumpPending();
    }

    method BumpPending()
      modifies this`pending
      ensures pending == BumpAll(old(pending), Others(total, id))
    {
      hide BumpAll, Others;
      BumpNobody(pending);
      NobodyElse(total, id);
      var i := 0;
      while i < total
        invariant 0 <= i && (i <= total || i == 0)
        invariant pending == BumpAll(old(pending), Others(i, id))
      {
        OthersNext(i, id);
        BumpNext(old(pending), Others(i, id), i);
        if i != id {
          pending := pending[i := Get(pending, i) + 1];
        }
        i := i + 1;
      }
    }

    // ---- clients ----

    method AddLogEntry(entry: Entry)
      requires role.Leader? && entry == Entry(|log|, term, entry.id, entry.operation, entry.message)
      modifies this`log, this`nextIndex, this`pending, this`outbox
      ensures View() == AddEntry(old(View()), entry.id, entry.operation, entry.message).node
      ensures outbox == old(outbox) + AddEntry(old(View()), entry.id, entry.operation, entry.message).sent
    {
      hide TriggerAll;
      log := log + [entry];
      TriggerFollowers();
    }

    method TriggerFollowers()
      modifies this`nextIndex, this`pending, this`outbox
      ensures View() == TriggerAll(old(View())).node
      ensures outbox == old(outbox) + TriggerAll(old(View())).sent
    {
      hide Trigger, Triggered, TriggerAll;
      ghost var n, done := View(), {};
      TriggeredEnds(n);
      var rest := nextIndex.Keys;
      while rest != {}
        invariant done + rest == n.nextIndex.Keys && done !! rest
        invariant View() == Triggered(n, done).node
        invariant outbox == old(outbox) + Triggered(n, done).sent
        decreases rest
      {
        SomeMember(rest);
        var f :| f in rest;
        TriggeredNext(n, done, f);
        TriggerEntryUpdate(f);
        done, rest := done + {f}, rest - {f};
      }
      assert done == n.nextIndex.Keys;
    }

    method OnClientPut(message: string, random: int)
      modifies this`log, this`nextIndex, this`pending, this`outbox
      ensures View() == AddEntry(old(View()), random, ADD, message).node
      ensures outbox == old(outbox) + AddEntry(old(View()), random, ADD, message).sent
    {
      hide TriggerAll;
      if role != Leader {
        return;
      }
      AddLogEntry(Entry(|log|, term, random, ADD, message));
    }

    method OnClientCommit(message: int)
      modifies this`log, this`nextIndex, this`pending, this`outbox
      ensures View() == AddEntry(old(View()), message, COMMIT, "").node
      ensures outbox == old(outbox) + AddEntry(old(View()), message, COMMIT, "").sent
    {
      hide TriggerAll;
      if role != Leader {
        return;
      }
      AddLogEntry(Entry(|log|, term, message, COMMIT, ""));
    }

    // ---- messages of the protocol ----

    method AcceptLeader(m: Message)
      requires m.AppendRequest?
      modifies this`role, this`term, this`leader
      ensures View() == Accept(old(View()), m)
    {
      if role == Candidate || (role == Leader && m.term > term) {
        role := Follower;
      }
      term := m.term;
      leader := m.leaderId;
    }

    method HandleAppendRequest(m: Message)
      requires Valid() && m.AppendRequest? && m.prevIndex >= 0
      modifies this, queue, clients`deliverCount, clients`written, storage
      ensures Valid()
      ensures View() == OnAppendRequest(old(View()), m).node
      ensures outbox == old(outbox) + OnAppendRequest(old(View()), m).sent
      ensures Settled(old(commit), |old(applied)|, old(queue.View()), old(clients.written), old(clients.deliverCount))
    {
      hide QueueInv, SamePersisted, Replay, DiskAfter, Stored, FollowerCommit, Append, Settled;
      if m.term < term {
        leader := NOBODY;
        Send(m.leaderId, AppendResponse(term, id, false, -1));
        NothingHappened();
        return;
      }
      AcceptLeader(m);
      if |log| < m.prevIndex + 1 || log[m.prevIndex].term != m.prevTerm {
        Send(m.leaderId, AppendResponse(term, id, false, -1));
        NothingHappened();
        return;
      }
      TakeEntries(m);
      Send(m.leaderId, AppendResponse(term, id, true, log[|log| - 1].index));
    }

    /** The part of the handler for a request that is neither out of date nor out of sync. */
    method TakeEntries(m: Message)
      requires Valid() && m.AppendRequest? && 0 <= m.prevIndex < |log|
      modifies queue, clients`deliverCount, clients`written, storage,
               this`applied, this`commit, this`stored, this`advances, this`log
      ensures Valid()
      ensures var b := FollowerCommit(old(View()), m.leaderCommit);
              View() == b.(log := Append(b.log, m.prevIndex, m.entries))
      ensures Settled(old(commit), |old(applied)|, old(queue.View()), old(clients.written), old(clients.deliverCount))
    {
      hide QueueInv, SamePersisted, Replay, DiskAfter, Stored, ApplyRange, Append, Settled;
      if commit < m.leaderCommit && m.leaderCommit < |log| {
        AdvanceCommit(m.leaderCommit);
      } else {
        NothingHappened();
      }
      AppendLogEntries(m.prevIndex, m.entries);
    }

    method CountSynced(index: int) returns (count: nat)
      ensures count == |SyncedWith(matched, index)|
    {
      count := 0;
      var rest := matched.Keys;
      ghost var done: set<int> := {};
      while rest != {}
        invariant done + rest == matched.Keys && done !! rest
        invariant count == |SyncedWith(matched, index) * done|
        decreases rest
      {
        SomeMember(rest);
        var f :| f in rest;
        if matched[f] >= index {
          assert SyncedWith(matched, index) * (done + {f}) == SyncedWith(matched, index) * done + {f};
          count := count + 1;
        } else {
          assert SyncedWith(matched, index) * (done + {f}) == SyncedWith(matched, index) * done;
        }
        done, rest := done + {f}, rest - {f};
      }
      assert SyncedWith(matched, index) * done == SyncedWith(matched, index);
    }

    /** Commits up to `index` once a majority has it. */
    method CommitIfSynced(index: int)
      requires Valid() && (commit < index && MajoritySynced(View(), index) ==> index < |log|)
      modifies queue, clients`deliverCount, clients`written, storage, this`applied, this`commit, this`stored, this`advances
      ensures Valid()
      ensures View() == LeaderCommit(old(View()), index)
      ensures Settled(old(commit), |old(applied)|, old(queue.View()), old(clients.written), old(clients.deliverCount))
    {
      hide QueueInv, SamePersisted, Replay, DiskAfter, Stored, ApplyRange, SyncedWith, Settled;
      NothingHappened();
      if commit < index {
        var count := CountSynced(index);
        if count + 1 > total / 2 {
          AdvanceCommit(index);
        }
      }
    }

    /** A success that makes a majority must name an index the log has: the entry there goes to storage. */
    ghost predicate InReach(m: Message)
      requires m.AppendResponse?
      reads this
    {
      var n := View().(matched := matched[m.followerId := m.lastSynced]);
      m.success && commit < m.lastSynced && MajoritySynced(n, m.lastSynced) ==> m.lastSynced < |log|
    }

    method DigestResponse(m: Message)
      requires Valid() && m.AppendResponse? && InReach(m)
      modifies this, queue, clients`deliverCount, clients`written, storage
      ensures Valid()
      ensures View() == Digest(old(View()), m) && outbox == old(outbox)
      ensures Settled(old(commit), |old(applied)|, old(queue.View()), old(clients.written), old(clients.deliverCount))
    {
      hide Valid, LeaderCommit, SyncedWith, Settled;
      var f := m.followerId;
      pending := pending[f := Max(0, Get(pending, f) - 1)];
      if m.success {
        matched := matched[f := m.lastSynced];
        CommitIfSynced(m.lastSynced);
        nextIndex := nextIndex[f := matched[f] + 1];
      } else if m.term > term {
        term := m.term;
        NothingHappened();
      } else {
        nextIndex := nextIndex[f := Max(1, Get(nextIndex, f) - 1)];
        NothingHappened();
      }
    }

    method HandleAppendResponse(m: Message)
      requires Valid() && m.AppendResponse? && InReach(m)
      modifies this, queue, clients`deliverCount, clients`written, storage
      ensures Valid()
      ensures View() == OnAppendResponse(old(View()), m).node
      ensures outbox == old(outbox) + OnAppendResponse(old(View()), m).sent
      ensures Settled(old(commit), |old(applied)|, old(queue.View()), old(clients.written), old(clients.deliverCount))
    {
      hide Valid, Trigger, Digest, InReach, Settled;
      DigestResponse(m);
      TriggerEntryUpdate(m.followerId);
    }

    method HandleVoteRequest(m: Message)
      requires m.VoteRequest?
      modifies this`term, this`votes, this`votedFor, this`outbox
      ensures View() == OnVoteRequest(old(View()), m).node
      ensures outbox == old(outbox) + OnVoteRequest(old(View()), m).sent
    {
      var invalid := false;
      if m.term < term {
        invalid := true;
      }
      if m.term == term && votedFor != NOBODY && votedFor != m.candidateId {
        invalid := true;
      }
      if invalid {
        Send(m.candidateId, VoteResponse(m.term, 0));
        return;
      }
      if m.term > term {
        term := m.term;
        votes := 0;
      }
      if role == Candidate || role == Follower {
        votedFor := m.candidateId;
        Send(m.candidateId, VoteResponse(m.term, 1));
      }
    }

    method HandleVoteResponse(m: Message)
      requires m.VoteResponse?
      modifies this`role, this`term, this`votes
      ensures View() == OnVoteResponse(old(View()), m).node
    {
      if role == Leader || role == Follower || m.granted == 0 || m.term < term {
        return;
      }
      if m.granted == 1 {
        votes := votes + 1;
      }
      if votes > total / 2 {
        role := Leader;
        term := m.term;
      }
    }
  }

  lemma ApplyRangeNext(log: seq<Entry>, start: int, i: int)
    requires start <= i
    ensures ApplyRange(log, start, i + 1) == ApplyRange(log, start, i) + if 0 < i < |log| then [log[i]] else []
  {
    var s := if start < 1 then 1 else start;
    if s <= i < |log| {
      assert log[s..i] + [log[i]] == log[s..i + 1];
    }
  }

  /** A consumer leaving does not change what is persisted. */
  lemma LeaveSame(q: Queue, applied: seq<Entry>, client: int)
    requires QueueInv(q) && SamePersisted(q, Replay(applied))
    ensures QueueInv(Disconnect(q, client)) && SamePersisted(Disconnect(q, client), Replay(applied))
  {
    ReplayInv(applied);
    StepSame(q, applied, Leave(client));
  }

  /** The storage of a node meets what a restart needs to know of it, once it is flushed. */
  lemma OwnDisk(node: ClusterNode)
    requires node.Valid() && node.storage.handed != [] && node.storage.handed[|node.storage.handed| - 1].Flush?
    ensures FlushedDisk(node.View(), node.storage.start.metadata, node.storage.handed)
    ensures node.storage.Contents() == DiskAfter(node.storage.codec, node.storage.start, node.storage.handed)
  {
  }

  lemma NothingGivenYet(q: Queue)
    ensures NothingGiven(q, q)
  {
  }

  lemma NothingGivenNext(a: Queue, b: Queue)
    requires NothingGiven(a, b)
    ensures forall c :: NothingGiven(b, c) ==> NothingGiven(a, c)
  {
  }

  lemma NothingLeft(before: Queue, after: Queue, slots: seq<int>)
    requires HandedOut(before, after, slots)
    ensures after.undelivered == {}
  {
  }

  lemma AppliesOne(log: seq<Entry>, i: int)
    requires 0 < i < |log|
    ensures ApplyRange(log, i, i + 1) == log[i..i + 1]
  {
  }

  lemma Suffix(a: seq<Entry>, b: seq<Entry>)
    ensures (a + b)[|a|..] == b
  {
  }

  lemma NothingToApply(log: seq<Entry>, start: int, stop: int)
    ensures ApplyRange(log, start, start) == [] && (stop <= start ==> ApplyRange(log, start, stop) == [])
  {
  }

  lemma ApplyAllNext(q: Queue, entries: seq<Entry>, more: seq<Entry>)
    requires more == entries || (|more| == |entries| + 1 && more[..|entries|] == entries)
    ensures ApplyAll(q, more) == if more == entries then ApplyAll(q, entries) else Apply(ApplyAll(q, entries), more[|entries|])
  {
  }

  /** A client that leaves holds nothing, what it held waits, and others keep what they hold. */
  lemma LeaveReleases(q: Queue, client: int)
    requires QueueInv(q)
    ensures var r := Disconnect(q, client);
            && client !in r.byConsumer && (forall x :: x in r.consumerOf ==> r.consumerOf[x] != client)
            && (forall x :: x in q.consumerOf && q.consumerOf[x] == client ==> x in r.undelivered)
            && (forall x :: x in q.consumerOf && q.consumerOf[x] != client ==>
                              x in r.consumerOf && r.consumerOf[x] == q.consumerOf[x])
  {
    forall x | x in q.consumerOf ensures x in Held(q.byConsumer, q.consumerOf[x]) {
    }
  }

  lemma TurnedTwice(counts: map<int, int>, partition: int, k: nat)
    ensures Turned(counts, partition, 0) == counts
    ensures Turned(counts, partition, 1) == counts[partition := Get(counts, partition) + 1]
    ensures Turned(Turned(counts, partition, 1), partition, k) == Turned(counts, partition, 1 + k)
  {
  }

  lemma EmptyReplay()
    ensures QueueInv(EMPTY) && SamePersisted(EMPTY, Replay([]))
  {
    ReplayInv([]);
  }
}
