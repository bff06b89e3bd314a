/** The registry of consumers and the delivery pass of a node. */
module ClientManagers {
  import opened Types
  import opened Queues
  import opened Delivery
  import opened MessageQueues

  /** The list without the first occurrence of x. */
  function EraseFirst(s: seq<int>, x: int): seq<int>
    decreases |s|
  {
    if s == [] then [] else if s[0] == x then s[1..] else [s[0]] + EraseFirst(s[1..], x)
  }

  /** Erasing once removes a client from the list exactly when it was in there at most once. */
  lemma {:induction false} EraseFirstIff(s: seq<int>, x: int)
    ensures x !in EraseFirst(s, x) <==> multiset(s)[x] <= 1
    ensures multiset(EraseFirst(s, x)) == multiset(s) - multiset{x}
    decreases |s|
  {
    if s != [] {
      assert s == [s[0]] + s[1..];
      var rest := s[1..];
      assert multiset(s) == multiset{s[0]} + multiset(rest);
      if s[0] != x {
        EraseFirstIff(rest, x);
        assert EraseFirst(s, x) == [s[0]] + EraseFirst(rest, x);
      } else {
        assert x in rest <==> x in multiset(rest);
      }
    }
  }

  lemma ErasedEverywhere(consumers: map<int, seq<int>>, client: int)
    ensures forall p, c :: p in consumers && c in EraseFirst(consumers[p], client) ==> c in consumers[p]
    ensures forall p :: p in consumers ==>
                          multiset(EraseFirst(consumers[p], client)) == multiset(consumers[p]) - multiset{client}
    ensures forall p :: p in consumers ==>
                          (client !in EraseFirst(consumers[p], client) <==> multiset(consumers[p])[client] <= 1)
  {
    forall p, c | p in consumers && c in EraseFirst(consumers[p], client) ensures c in consumers[p] {
      EraseFirstIff(consumers[p], client);
      assert c in multiset(EraseFirst(consumers[p], client));
    }
    forall p | p in consumers
      ensures multiset(EraseFirst(consumers[p], client)) == multiset(consumers[p]) - multiset{client}
      ensures client !in EraseFirst(consumers[p], client) <==> multiset(consumers[p])[client] <= 1
    {
      EraseFirstIff(consumers[p], client);
    }
  }

  /** The registry with one occurrence of the client erased from the given partitions. */
  function Without(consumers: map<int, seq<int>>, partitions: set<int>, client: int): map<int, seq<int>> {
    map p | p in consumers :: if p in partitions then EraseFirst(consumers[p], client) else consumers[p]
  }

  lemma WithoutNext(consumers: map<int, seq<int>>, rest: set<int>, client: int, p: int)
    requires rest <= consumers.Keys && p in rest
    ensures var w := Without(consumers, consumers.Keys - rest, client);
            p in w && w[p := EraseFirst(w[p], client)] == Without(consumers, consumers.Keys - (rest - {p}), client)
  {
  }

  /** What is written to a client: a message with its id, or the answer to an open request. */
  datatype Note = Handed(id: int, text: string) | Opened(success: bool)

  datatype Letter = Letter(client: int, note: Note)

  class ClientManager {
    var consumers: map<int, seq<int>>
    var deliverCount: map<int, int>
    var sessions: set<int>
    /** What was written to the sessions so far, in order. */
    var written: seq<Letter>

    /** Every slot has a live session behind it, and the counters are not negative. */
    ghost predicate Valid()
      reads this
    {
      && (forall p, c :: p in consumers && c in consumers[p] ==> c in sessions)
      && (forall c :: c in sessions ==> c >= 0)
      && (forall p :: p in deliverCount ==> deliverCount[p] >= 0)
    }

    constructor ()
      ensures Valid() && consumers == map[] && deliverCount == map[] && sessions == {} && written == []
    {
      consumers, deliverCount, sessions, written := map[], map[], {}, [];
    }

    /** Writes to the consumer whose turn it is; -1 when nobody listens, 1 when the partition was never opened. */
    method DeliverOneMessageRoundRobin(partition: int, note: Note) returns (client: int)
      requires Valid()
      modifies this`deliverCount, this`written
      ensures Valid()
      ensures partition !in consumers ==> client == 1
      ensures partition in consumers && consumers[partition] == [] ==> client == -1
      ensures partition !in consumers || consumers[partition] == [] ==>
                deliverCount == old(deliverCount) && written == old(written)
      ensures partition in consumers && consumers[partition] != [] ==>
                && client == Turn(consumers[partition], Get(old(deliverCount), partition))
                && client in sessions
                && deliverCount == old(deliverCount)[partition := Get(old(deliverCount), partition) + 1]
                && written == old(written) + [Letter(client, note)]
    {
      if partition !in consumers {
        return 1;
      }
      if |consumers[partition]| == 0 {
        return -1;
      }
      var count := Get(deliverCount, partition);
      client := consumers[partition][count % |consumers[partition]|];
      written := written + [Letter(client, note)];
      deliverCount := deliverCount[partition := count + 1];
    }

    method HasConsumers() returns (some: bool)
      ensures some <==> consumers != map[]
    {
      some := |consumers| > 0;
    }

    method OpenQueue(partition: int, client: int)
      requires Valid() && client in sessions
      modifies this`consumers
      ensures Valid()
      ensures var slots := if partition in old(consumers) then old(consumers)[partition] else [];
              consumers == old(consumers)[partition := slots + [client]]
    {
      var slots := if partition in consumers then consumers[partition] else [];
      consumers := consumers[partition := slots + [client]];
    }

    /** Drops the session and one registration per partition. No slot is left without a session
        exactly when the client had opened every partition at most once. */
    method Disconnected(client: int)
      requires Valid()
      modifies this`consumers, this`sessions
      ensures sessions == old(sessions) - {client}
      ensures consumers == Without(old(consumers), old(consumers).Keys, client)
      ensures consumers.Keys == old(consumers).Keys
      ensures forall p :: p in consumers ==> multiset(consumers[p]) == multiset(old(consumers)[p]) - multiset{client}
      ensures Valid() <==> forall p :: p in old(consumers) ==> multiset(old(consumers)[p])[client] <= 1
    {
      sessions := sessions - {client};
      var rest := consumers.Keys;
      while rest != {}
        invariant sessions == old(sessions) - {client}
        invariant rest <= old(consumers).Keys
        invariant consumers == Without(old(consumers), old(consumers).Keys - rest, client)
        decreases rest
      {
        SomeMember(rest);
        var p :| p in rest;
        WithoutNext(old(consumers), rest, client, p);
        consumers := consumers[p := EraseFirst(consumers[p], client)];
        rest := rest - {p};
      }
      assert old(consumers).Keys - rest == old(consumers).Keys;
      ErasedEverywhere(old(consumers), client);
    }
  }

  /** The slots of a partition; one that was never opened answers with client 1. */
  function SlotsOf(consumers: map<int, seq<int>>, partition: int): seq<int> {
    if partition in consumers then consumers[partition] else [1]
  }

  ghost predicate Snapshot(ids: seq<int>, undelivered: set<int>) {
    Distinct(ids) && forall x :: x in ids <==> x in undelivered
  }

  /** The pass over snapshot `ids` turned queue `before` into `after`. */
  ghost predicate Passed(before: Queue, after: Queue, ids: seq<int>, slots: seq<int>, count: int) {
    Snapshot(ids, before.undelivered) && slots != [] && count >= 0 && after == Pass(before, ids, slots, count)
  }

  /** What a pass over `ids` writes: each message with its text, to the slot whose turn it is. */
  function Letters(store: map<int, string>, ids: seq<int>, slots: seq<int>, count: nat): (letters: seq<Letter>)
    requires slots != [] && forall k :: 0 <= k < |ids| ==> ids[k] in store
    ensures |letters| == |ids|
  {
    seq(|ids|, k requires 0 <= k < |ids| => Letter(Turn(slots, count + k), Handed(ids[k], store[ids[k]])))
  }

  /** The counters after k more turns of the partition. */
  function Turned(counts: map<int, int>, partition: int, k: nat): map<int, int> {
    if k == 0 then counts else counts[partition := Get(counts, partition) + k]
  }

  lemma TurnedNext(counts: map<int, int>, partition: int, k: nat)
    ensures Get(Turned(counts, partition, k), partition) == Get(counts, partition) + k
    ensures Turned(counts, partition, k + 1) ==
            Turned(counts, partition, k)[partition := Get(Turned(counts, partition, k), partition) + 1]
  {
  }

  /** The partition has been opened and somebody is still registered. */
  predicate Listened(consumers: map<int, seq<int>>, partition: int) {
    partition in consumers && consumers[partition] != []
  }

  lemma SnapshotStored(q: Queue, ids: seq<int>)
    requires QueueInv(q) && Snapshot(ids, q.undelivered)
    ensures forall k :: 0 <= k < |ids| ==> ids[k] in q.undelivered && ids[k] in q.store
  {
    forall k | 0 <= k < |ids| ensures ids[k] in q.undelivered && ids[k] in q.store {
      SnapshotMember(ids, q.undelivered, ids[k]);
      assert ids[k] in q.undelivered + Delivered(q) + q.committed;
    }
  }

  lemma SnapshotMember(ids: seq<int>, s: set<int>, x: int)
    requires Snapshot(ids, s)
    ensures x in ids <==> x in s
  {
  }

  lemma {:induction false} SnapshotSize(ids: seq<int>, s: set<int>)
    requires Snapshot(ids, s)
    ensures |ids| == |s|
  {
    if ids == [] {
      forall x ensures x !in s {
        SnapshotMember(ids, s, x);
      }
    } else {
      var k := |ids| - 1;
      DistinctPrefix(ids, k);
      assert ids == ids[..k] + [ids[k]];
      forall x ensures x in ids[..k] <==> x in s - {ids[k]} {
        SnapshotMember(ids, s, x);
      }
      SnapshotMember(ids, s, ids[k]);
      SnapshotSize(ids[..k], s - {ids[k]});
    }
  }

  /** The pass keeps the queue in order, and a message of the snapshot is stored and undelivered until its turn. */
  lemma WaitsItsTurn(q: Queue, ids: seq<int>, slots: seq<int>, count: nat, k: nat)
    requires QueueInv(q) && Snapshot(ids, q.undelivered) && k <= |ids|
    ensures slots != [] ==> QueueInv(Pass(q, ids[..k], slots, count)) && Pass(q, ids[..k], slots, count).store == q.store
    ensures k < |ids| ==> ids[k] in q.store
    ensures k < |ids| && slots != [] ==>
              ids[k] in Pass(q, ids[..k], slots, count).store && ids[k] in Pass(q, ids[..k], slots, count).undelivered
  {
    SnapshotStored(q, ids);
    if slots != [] {
      hide QueueInv;
      PassEffect(q, ids[..k], slots, count);
    }
  }

  /** Queue, letters and counters, primed, after the first k messages of the snapshot were given out. */
  ghost predicate SoFar(q: Queue, written: seq<Letter>, counts: map<int, int>, consumers: map<int, seq<int>>, partition: int,
                        ids: seq<int>, k: nat, q': Queue, written': seq<Letter>, counts': map<int, int>)
  {
    var slots, count := SlotsOf(consumers, partition), Get(counts, partition);
    && count >= 0 && k <= |ids| && (forall j :: 0 <= j < |ids| ==> ids[j] in q.store)
    && q' == (if slots == [] then q else Pass(q, ids[..k], slots, count))
    && written' == written + (if Listened(consumers, partition) then Letters(q.store, ids[..k], slots, count) else [])
    && counts' == Turned(counts, partition, if Listened(consumers, partition) then k else 0)
  }

  lemma SoFarStart(q: Queue, written: seq<Letter>, counts: map<int, int>, consumers: map<int, seq<int>>, partition: int,
                   ids: seq<int>)
    requires Get(counts, partition) >= 0 && forall j :: 0 <= j < |ids| ==> ids[j] in q.store
    ensures SoFar(q, written, counts, consumers, partition, ids, 0, q, written, counts)
  {
  }

  lemma LettersNext(store: map<int, string>, ids: seq<int>, slots: seq<int>, count: nat, k: nat)
    requires k < |ids| && slots != [] && forall j :: 0 <= j < |ids| ==> ids[j] in store
    ensures Letters(store, ids[..k + 1], slots, count) ==
            Letters(store, ids[..k], slots, count) + [Letter(Turn(slots, count + k), Handed(ids[k], store[ids[k]]))]
  {
    hide Turn;
  }

  lemma SoFarNext(q: Queue, written: seq<Letter>, counts: map<int, int>, consumers: map<int, seq<int>>, partition: int,
                  ids: seq<int>, k: nat, q': Queue, written': seq<Letter>, counts': map<int, int>, client: int)
    requires SoFar(q, written, counts, consumers, partition, ids, k, q', written', counts') && k < |ids|
    requires Listened(consumers, partition) ==> client == Turn(consumers[partition], Max(0, Get(counts', partition)))
    requires partition !in consumers ==> client == 1
    requires SlotsOf(consumers, partition) != []
    ensures var more := Listened(consumers, partition);
            SoFar(q, written, counts, consumers, partition, ids, k + 1, Deliver(q', ids[k], client),
                  if more then written' + [Letter(client, Handed(ids[k], q.store[ids[k]]))] else written',
                  if more then counts'[partition := Get(counts', partition) + 1] else counts')
  {
    var slots, count := SlotsOf(consumers, partition), Get(counts, partition);
    LettersNext(q.store, ids, slots, count, k);
    TurnedNext(counts, partition, k);
    assert ids[..k + 1][..k] == ids[..k];
    hide Letters, Turned, Deliver;
    assert Turn(slots, count + k) == client;
  }

  /** Gives out a snapshot, one message per turn; stops at once when nobody listens. */
  method DeliverSnapshot(partition: int, queue: MessageQueue, clients: ClientManager, ids: seq<int>)
    requires clients.Valid() && QueueInv(queue.View()) && Snapshot(ids, queue.undelivered)
    modifies queue, clients`deliverCount, clients`written
    ensures clients.Valid()
    ensures SoFar(old(queue.View()), old(clients.written), old(clients.deliverCount), clients.consumers, partition,
                  ids, if SlotsOf(clients.consumers, partition) == [] then 0 else |ids|,
                  queue.View(), clients.written, clients.deliverCount)
  {
    ghost var q, written, counts, consumers := queue.View(), clients.written, clients.deliverCount, clients.consumers;
    SnapshotStored(q, ids);
    hide QueueInv, Deliver, Snapshot, SoFar;
    SoFarStart(q, written, counts, consumers, partition, ids);
    for k := 0 to |ids|
      invariant clients.Valid() && (k > 0 ==> SlotsOf(consumers, partition) != [])
      invariant SoFar(q, written, counts, consumers, partition, ids, k, queue.View(), clients.written, clients.deliverCount)
    {
      ReadyNext(q, written, counts, consumers, partition, ids, k, queue.View(), clients.written, clients.deliverCount);
      var text := queue.GetMessage(ids[k]);
      ghost var q', written', counts' := queue.View(), clients.written, clients.deliverCount;
      var consumer := clients.DeliverOneMessageRoundRobin(partition, Handed(ids[k], text));
      if consumer == -1 {
        assert SlotsOf(consumers, partition) == [];
        return;
      }
      SoFarNext(q, written, counts, consumers, partition, ids, k, q', written', counts', consumer);
      queue.DeliverMessageToClientId(ids[k], consumer);
    }
  }

  /** The message whose turn it is can be looked up. */
  lemma ReadyNext(q: Queue, written: seq<Letter>, counts: map<int, int>, consumers: map<int, seq<int>>, partition: int,
                  ids: seq<int>, k: nat, q': Queue, written': seq<Letter>, counts': map<int, int>)
    requires QueueInv(q) && Snapshot(ids, q.undelivered) && k < |ids|
    requires SoFar(q, written, counts, consumers, partition, ids, k, q', written', counts')
    ensures ids[k] in q.store && ids[k] in q'.store && q'.store[ids[k]] == q.store[ids[k]] && Fetch(q', ids[k]) == q'
  {
    WaitsItsTurn(q, ids, SlotsOf(consumers, partition), Get(counts, partition), k);
  }

  /** The delivery pass: a leader gives every undelivered message to the next consumer slot in turn, and writes it there. */
  method TriggerMessageDelivery(leader: bool, partition: int, queue: MessageQueue, clients: ClientManager)
    returns (ghost ids: seq<int>)
    requires clients.Valid() && QueueInv(queue.View())
    modifies queue, clients`deliverCount, clients`written
    ensures clients.Valid() && QueueInv(queue.View())
    ensures var slots := SlotsOf(clients.consumers, partition);
            if !leader || clients.consumers == map[] || slots == []
            then queue.View() == old(queue.View()) && clients.written == old(clients.written)
                 && clients.deliverCount == old(clients.deliverCount)
            else Passed(old(queue.View()), queue.View(), ids, slots, Get(old(clients.deliverCount), partition))
                 && queue.undelivered == {}
                 && (forall k :: 0 <= k < |ids| ==> ids[k] in old(queue.store))
                 && clients.written == old(clients.written) +
                    (if partition in clients.consumers
                     then Letters(old(queue.store), ids, slots, Get(old(clients.deliverCount), partition)) else [])
                 && clients.deliverCount == Turned(old(clients.deliverCount), partition,
                                                   if partition in clients.consumers then |old(queue.undelivered)| else 0)
  {
    ids := [];
    if !leader {
      return;
    }
    var some := clients.HasConsumers();
    if !some {
      return;
    }
    var snapshot := queue.GetAllUndeliveredMessages();
    ids := snapshot;
    ghost var q, slots, count := queue.View(), SlotsOf(clients.consumers, partition), Get(clients.deliverCount, partition);
    SnapshotSize(snapshot, q.undelivered);
    hide Letters, Pass, Turned;
    NoTurn(clients.deliverCount, partition);
    DeliverSnapshot(partition, queue, clients, snapshot);
    assert snapshot[..|snapshot|] == snapshot;
    if slots != [] {
      hide QueueInv;
      PassEmpties(q, snapshot, slots, count);
      WaitsItsTurn(q, snapshot, slots, count, |snapshot|);
    }
  }

  lemma NoTurn(counts: map<int, int>, partition: int)
    ensures Turned(counts, partition, 0) == counts
  {
  }
}
