/** The message queue of one node: what the log decides (store, committed) and what deliveries and
    disconnects move around (undelivered, delivered). */
module Queues {
  import opened Types

  datatype Queue = Queue(
    store: map<int, string>, undelivered: set<int>, committed: set<int>,
    byConsumer: map<int, set<int>>, consumerOf: map<int, int>)

  const EMPTY := Queue(map[], {}, {}, map[], map[])

  function Insert(q: Queue, id: int, text: string): Queue {
    if id in q.store then q
    else q.(store := q.store[id := text], undelivered := q.undelivered + {id})
  }

  function Held(byConsumer: map<int, set<int>>, client: int): set<int> {
    if client in byConsumer then byConsumer[client] else {}
  }

  function Commit(q: Queue, id: int): Queue {
    if id !in q.store then q else
      var r := if id !in q.consumerOf then q else
                 var client := q.consumerOf[id];
                 q.(byConsumer := q.byConsumer[client := Held(q.byConsumer, client) - {id}],
                    consumerOf := q.consumerOf - {id});
      r.(committed := r.committed + {id}, undelivered := r.undelivered - {id})
  }

  function Deliver(q: Queue, id: int, client: int): Queue {
    q.(undelivered := q.undelivered - {id},
       byConsumer := q.byConsumer[client := Held(q.byConsumer, client) + {id}],
       consumerOf := q.consumerOf[id := client])
  }

  function Disconnect(q: Queue, client: int): Queue {
    if client !in q.byConsumer then q else
      q.(undelivered := q.undelivered + q.byConsumer[client],
         consumerOf := q.consumerOf - q.byConsumer[client],
         byConsumer := q.byConsumer - {client})
  }

  /** Looking a message up creates an empty one when the id is unknown. */
  function Fetch(q: Queue, id: int): Queue {
    if id in q.store then q else q.(store := q.store[id := ""])
  }

  /** Applying one log entry; operations other than ADD and COMMIT do nothing. */
  function Apply(q: Queue, e: Entry): Queue {
    if e.operation == ADD then Insert(q, e.id, e.message)
    else if e.operation == COMMIT then Commit(q, e.id)
    else q
  }

  function ApplyAll(q: Queue, entries: seq<Entry>): Queue
    decreases |entries|
  {
    if entries == [] then q else Apply(ApplyAll(q, entries[..|entries| - 1]), entries[|entries| - 1])
  }

  /** The queue of a node that only applied `entries`. */
  function Replay(entries: seq<Entry>): Queue {
    ApplyAll(EMPTY, entries)
  }

  function Delivered(q: Queue): set<int> {
    q.consumerOf.Keys
  }

  // ---- the three states of a message ----

  /** Each stored message is in exactly one of undelivered, delivered, committed. */
  ghost predicate Partition(q: Queue) {
    && q.undelivered + Delivered(q) + q.committed == q.store.Keys
    && q.undelivered !! Delivered(q) && q.undelivered !! q.committed && Delivered(q) !! q.committed
  }

  /** The two delivery maps are inverses of each other. */
  ghost predicate Inverse(q: Queue) {
    && (forall id :: id in q.consumerOf ==> id in Held(q.byConsumer, q.consumerOf[id]))
    && (forall client, id :: client in q.byConsumer && id in q.byConsumer[client] ==>
                               id in q.consumerOf && q.consumerOf[id] == client)
  }

  ghost predicate QueueInv(q: Queue) {
    Partition(q) && Inverse(q)
  }

  lemma InsertKeeps(q: Queue, id: int, text: string)
    requires QueueInv(q)
    ensures QueueInv(Insert(q, id, text))
  {
  }

  lemma CommitKeeps(q: Queue, id: int)
    requires QueueInv(q)
    ensures QueueInv(Commit(q, id))
  {
    if id in q.consumerOf {
      assert forall c, x :: c in q.byConsumer && x in q.byConsumer[c] ==> q.consumerOf[x] == c;
    }
  }

  lemma HeldIsDelivered(q: Queue, client: int)
    requires Inverse(q) && client in q.byConsumer
    ensures q.byConsumer[client] <= Delivered(q)
  {
    forall id | id in q.byConsumer[client] ensures id in Delivered(q) {
      assert id in q.consumerOf;
    }
  }

  lemma DisconnectKeeps(q: Queue, client: int)
    requires QueueInv(q)
    ensures QueueInv(Disconnect(q, client))
  {
    if client in q.byConsumer {
      HeldIsDelivered(q, client);
    }
  }

  /** Exactly the deliveries of undelivered messages, or again to the same consumer, keep the queue in order. */
  lemma DeliverKeepsIff(q: Queue, id: int, client: int)
    requires QueueInv(q)
    ensures QueueInv(Deliver(q, id, client)) <==>
            id in q.undelivered || (id in q.consumerOf && q.consumerOf[id] == client)
  {
    var r := Deliver(q, id, client);
    if id in q.consumerOf && q.consumerOf[id] != client {
      var first := q.consumerOf[id];
      assert first in r.byConsumer && id in r.byConsumer[first] && r.consumerOf[id] == client;
    } else if id !in q.undelivered && id !in q.consumerOf {
      assert id in Delivered(r);
      if id in q.committed { assert id in r.committed; } else { assert id !in r.store; }
    }
  }

  /** Looking a message up keeps the queue in order exactly when the message is stored. */
  lemma FetchKeepsIff(q: Queue, id: int)
    requires QueueInv(q)
    ensures QueueInv(Fetch(q, id)) <==> id in q.store
  {
    if id !in q.store {
      assert id in Fetch(q, id).store.Keys;
    }
  }

  // ---- every interleaving ----

  /** What can happen to the queue of a node: a log entry is applied, an undelivered message is
      given to a consumer, a consumer leaves. */
  datatype Event = Log(e: Entry) | Give(id: int, client: int) | Leave(client: int)

  function React(q: Queue, ev: Event): Queue {
    match ev
    case Log(e) => Apply(q, e)
    case Give(id, client) => Deliver(q, id, client)
    case Leave(client) => Disconnect(q, client)
  }

  function After(events: seq<Event>): Queue
    decreases |events|
  {
    if events == [] then EMPTY else React(After(events[..|events| - 1]), events[|events| - 1])
  }

  /** Only undelivered messages are given out. */
  ghost predicate Legal(events: seq<Event>) {
    forall k :: 0 <= k < |events| && events[k].Give? ==> events[k].id in After(events[..k]).undelivered
  }

  /** The log entries among the events, in order. */
  function LogOf(events: seq<Event>): seq<Entry>
    decreases |events|
  {
    if events == [] then [] else
      LogOf(events[..|events| - 1]) + if events[|events| - 1].Log? then [events[|events| - 1].e] else []
  }

  /** `q` is `follower` with some of its undelivered messages out at consumers. */
  ghost predicate SamePersisted(q: Queue, follower: Queue) {
    && q.store == follower.store && q.committed == follower.committed
    && q.undelivered + Delivered(q) == follower.undelivered
  }

  lemma ReactKeeps(q: Queue, ev: Event)
    requires QueueInv(q) && (ev.Give? ==> ev.id in q.undelivered)
    ensures QueueInv(React(q, ev)) && q.committed <= React(q, ev).committed
  {
    match ev
    case Log(e) =>
      InsertKeeps(q, e.id, e.message);
      CommitKeeps(q, e.id);
    case Give(id, client) => DeliverKeepsIff(q, id, client);
    case Leave(client) => DisconnectKeeps(q, client);
  }

  lemma ApplySame(q: Queue, follower: Queue, e: Entry)
    requires QueueInv(q) && QueueInv(follower) && SamePersisted(q, follower)
    ensures SamePersisted(Apply(q, e), Apply(follower, e))
  {
    hide Inverse;
  }

  lemma MoveSame(q: Queue, follower: Queue, ev: Event)
    requires QueueInv(q) && SamePersisted(q, follower) && !ev.Log? && (ev.Give? ==> ev.id in q.undelivered)
    ensures SamePersisted(React(q, ev), follower)
  {
    if ev.Leave? && ev.client in q.byConsumer {
      HeldIsDelivered(q, ev.client);
    }
  }

  lemma {:induction false} ReplayInv(entries: seq<Entry>)
    ensures QueueInv(Replay(entries)) && Delivered(Replay(entries)) == {}
  {
    if entries != [] {
      var before, e := entries[..|entries| - 1], entries[|entries| - 1];
      ReplayInv(before);
      ReactKeeps(Replay(before), Log(e));
    }
  }

  lemma LegalPrefix(events: seq<Event>, k: nat)
    requires Legal(events) && k <= |events|
    ensures Legal(events[..k])
  {
    assert forall j :: 0 <= j < k ==> events[..k][..j] == events[..j];
  }

  /** In every reachable queue each stored message is in exactly one of the three states, the delivery maps
      are inverses, and the persisted state is that of a plain replay of the applied entries: for every
      interleaving with deliveries and disconnects. */
  lemma {:induction false} PersistedIsReplay(events: seq<Event>)
    requires Legal(events)
    ensures QueueInv(After(events))
    ensures SamePersisted(After(events), Replay(LogOf(events)))
  {
    ReplayInv(LogOf(events));
    if events != [] {
      var k := |events| - 1;
      LegalPrefix(events, k);
      PersistedIsReplay(events[..k]);
      ReplayInv(LogOf(events[..k]));
      StepSame(After(events[..k]), LogOf(events[..k]), events[k]);
    }
  }

  lemma StepSame(q: Queue, entries: seq<Entry>, ev: Event)
    requires QueueInv(q) && QueueInv(Replay(entries)) && SamePersisted(q, Replay(entries))
    requires ev.Give? ==> ev.id in q.undelivered
    ensures QueueInv(React(q, ev))
    ensures SamePersisted(React(q, ev), Replay(entries + if ev.Log? then [ev.e] else []))
  {
    hide QueueInv, SamePersisted, Apply;
    ReactKeeps(q, ev);
    if ev.Log? {
      assert (entries + [ev.e])[..|entries|] == entries;
      ApplySame(q, Replay(entries), ev.e);
    } else {
      assert entries + [] == entries;
      MoveSame(q, Replay(entries), ev);
    }
  }

  /** Once committed, a message stays committed, so it is never undelivered or delivered again,
      whatever is applied, delivered or disconnected later. */
  lemma {:induction false} CommittedForever(events: seq<Event>, k: nat, id: int)
    requires Legal(events) && k <= |events| && id in After(events[..k]).committed
    ensures id in After(events).committed
    ensures id !in After(events).undelivered && id !in Delivered(After(events))
    decreases |events| - k
  {
    PersistedIsReplay(events);
    if k < |events| {
      LegalPrefix(events, k);
      PersistedIsReplay(events[..k]);
      assert events[..k + 1][..k] == events[..k];
      ReactKeeps(After(events[..k]), events[k]);
      CommittedForever(events, k + 1, id);
    } else {
      assert events[..k] == events;
    }
  }

  // ---- what a replay is, entry by entry ----

  ghost predicate AddsAt(entries: seq<Entry>, id: int, i: int) {
    0 <= i < |entries| && entries[i].operation == ADD && entries[i].id == id
  }

  ghost predicate CommitsAt(entries: seq<Entry>, id: int, i: int) {
    0 <= i < |entries| && entries[i].operation == COMMIT && entries[i].id == id
  }

  /** A message is stored exactly when some entry adds it, with the text of the first one. */
  lemma {:induction false} ReplayStore(entries: seq<Entry>, id: int)
    ensures id in Replay(entries).store <==> exists i :: AddsAt(entries, id, i)
    ensures forall i :: AddsAt(entries, id, i) && (forall j :: AddsAt(entries, id, j) ==> i <= j) ==>
                          Replay(entries).store[id] == entries[i].message
  {
    if entries != [] {
      var k := |entries| - 1;
      var before := entries[..k];
      ReplayStore(before, id);
      assert forall i :: 0 <= i < k ==> (AddsAt(entries, id, i) <==> AddsAt(before, id, i));
      if exists i :: AddsAt(before, id, i) {
        var i :| AddsAt(before, id, i);
        assert AddsAt(entries, id, i);
      }
      assert AddsAt(entries, id, k) <==> entries[k].operation == ADD && entries[k].id == id;
    }
  }

  /** A message is committed exactly when an entry commits it after one that adds it. */
  lemma {:induction false} ReplayCommitted(entries: seq<Entry>, id: int)
    ensures id in Replay(entries).committed <==>
            exists i, j :: AddsAt(entries, id, i) && CommitsAt(entries, id, j) && i < j
  {
    if entries != [] {
      var k := |entries| - 1;
      var before := entries[..k];
      ReplayCommitted(before, id);
      ReplayStore(before, id);
      assert forall i :: 0 <= i < k ==> (AddsAt(entries, id, i) <==> AddsAt(before, id, i));
      assert forall i :: 0 <= i < k ==> (CommitsAt(entries, id, i) <==> CommitsAt(before, id, i));
      assert CommitsAt(entries, id, k) <==> entries[k].operation == COMMIT && entries[k].id == id;
    }
  }
}
