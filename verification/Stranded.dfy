/** Deliveries and disconnects run on different threads: the registry of consumers changes under its
    lock at any moment, even between picking a consumer and recording the delivery, and the queue hears
    of a disconnect only when its node runs the posted task. */
module Stranded {
  import opened Types
  import opened Queues
  import opened Delivery
  import opened ClientManagers

  /** Where the node is inside a delivery pass: `rest` is still to be given out. */
  datatype Progress = Idle | Passing(rest: seq<int>) | Picked(rest: seq<int>, id: int, client: int)

  /** One partition: the registered slots, the clients with a live session, the counter, the queue of its node,
      the disconnect tasks posted to the node. */
  datatype World = World(
    registered: bool, slots: seq<int>, sessions: set<int>, count: nat,
    queue: Queue, tasks: multiset<int>, progress: Progress)

  const START := World(false, [], {}, 0, EMPTY, multiset{}, Idle)

  /** Clients connect, open and drop; the node applies entries, delivers (start, pick and record per message, finish),
      answers an open request, and runs disconnect tasks. */
  datatype Event =
    | Connect(client: int)
    | Open(client: int)
    | Drop(client: int)
    | Committed(e: Entry)
    | Start(ids: seq<int>)
    | Pick
    | Record
    | Finish
    | Answer
    | Task(client: int)

  /** What the threads allow: live sessions have different ids and end once, the node does one thing at a time. */
  ghost predicate Possible(w: World, ev: Event) {
    match ev
    case Connect(client) => client !in w.sessions
    case Open(_) => true
    case Drop(client) => client in w.sessions
    case Committed(_) => w.progress.Idle?
    case Start(ids) => w.progress.Idle? && Distinct(ids) && forall x :: x in ids <==> x in w.queue.undelivered
    case Pick => w.progress.Passing? && w.progress.rest != []
    case Record => w.progress.Picked?
    case Finish => w.progress == Passing([])
    case Answer => w.progress.Idle?
    case Task(client) => w.progress.Idle? && client in w.tasks
  }

  ghost function Happen(w: World, ev: Event): World
    requires Possible(w, ev)
  {
    match ev
    case Connect(client) => w.(sessions := w.sessions + {client})
    case Open(client) => w.(registered := true, slots := w.slots + [client])
    case Drop(client) =>
      w.(slots := EraseFirst(w.slots, client), sessions := w.sessions - {client}, tasks := w.tasks + multiset{client})
    case Committed(e) => w.(queue := Apply(w.queue, e))
    case Start(ids) => w.(progress := Passing(ids))
    case Pick =>
      var id, rest := w.progress.rest[0], w.progress.rest[1..];
      if !w.registered then w.(progress := Picked(rest, id, 1))
      else if w.slots == [] then w.(progress := Idle)
      else w.(progress := Picked(rest, id, Turn(w.slots, w.count)), count := w.count + 1)
    case Record =>
      w.(queue := Deliver(w.queue, w.progress.id, w.progress.client), progress := Passing(w.progress.rest))
    case Finish => w.(progress := Idle)
    case Answer => if w.registered && w.slots != [] then w.(count := w.count + 1) else w
    case Task(client) => w.(queue := Disconnect(w.queue, client), tasks := w.tasks - multiset{client})
  }

  /** Somebody will look after what this client holds: it has a live session, or its disconnect is due. */
  ghost predicate Attended(w: World, client: int) {
    client in w.sessions || client in w.tasks
  }

  ghost predicate NobodyStranded(w: World) {
    forall id :: id in w.queue.consumerOf ==> Attended(w, w.queue.consumerOf[id])
  }

  ghost predicate ProgressOk(w: World) {
    match w.progress
    case Idle => true
    case Passing(rest) => Distinct(rest) && forall k :: 0 <= k < |rest| ==> rest[k] in w.queue.undelivered
    case Picked(rest, id, client) =>
      && Distinct(rest) && id !in rest && id in w.queue.undelivered && Attended(w, client)
      && forall k :: 0 <= k < |rest| ==> rest[k] in w.queue.undelivered
  }

  /** Each registered client is registered once and has a live session. */
  ghost predicate SlotsOk(w: World) {
    && (w.slots != [] ==> w.registered)
    && (forall c :: multiset(w.slots)[c] <= 1)
    && (forall c :: c in w.slots ==> c in w.sessions)
  }

  ghost predicate WorldInv(w: World) {
    QueueInv(w.queue) && SlotsOk(w) && ProgressOk(w) && NobodyStranded(w)
  }

  /** The conditions on clients and the partition. */
  ghost predicate Proper(w: World, ev: Event) {
    && (ev.Open? ==> ev.client !in w.slots && ev.client in w.sessions)
    && (ev.Pick? ==> w.registered)
  }

  /** Changing the registry is safe for deliveries as long as everybody attended stays attended. */
  lemma AttendedKeeps(w: World, w': World)
    requires WorldInv(w) && w'.queue == w.queue && w'.progress == w.progress
    requires forall c :: Attended(w, c) ==> Attended(w', c)
    ensures QueueInv(w'.queue) && ProgressOk(w') && NobodyStranded(w')
  {
    hide QueueInv, SlotsOk;
  }

  lemma SlotsOpenIff(w: World, client: int)
    requires SlotsOk(w)
    ensures SlotsOk(w.(registered := true, slots := w.slots + [client])) <==> client !in w.slots && client in w.sessions
  {
    var slots := w.slots + [client];
    assert multiset(slots) == multiset(w.slots) + multiset{client};
    assert client in w.slots <==> client in multiset(w.slots);
    assert client in slots;
    assert client in w.slots ==> multiset(slots)[client] == 2;
  }

  /** The invariant survives an open exactly when the client is not registered yet and has a live session. */
  lemma OpenKeepsIff(w: World, client: int)
    requires WorldInv(w)
    ensures WorldInv(Happen(w, Open(client))) <==> client !in w.slots && client in w.sessions
  {
    hide QueueInv, SlotsOk, ProgressOk, NobodyStranded;
    SlotsOpenIff(w, client);
    AttendedKeeps(w, Happen(w, Open(client)));
  }

  lemma SlotsDrop(w: World, client: int)
    requires SlotsOk(w)
    ensures SlotsOk(w.(slots := EraseFirst(w.slots, client), sessions := w.sessions - {client}))
  {
    var slots := EraseFirst(w.slots, client);
    EraseFirstIff(w.slots, client);
    hide EraseFirst;
    forall c ensures c in slots <==> c in w.slots && c != client {
      assert c in w.slots <==> c in multiset(w.slots);
      assert c in slots <==> c in multiset(slots);
    }
  }

  lemma DropKeeps(w: World, client: int)
    requires WorldInv(w) && client in w.sessions
    ensures WorldInv(Happen(w, Drop(client)))
  {
    hide QueueInv, ProgressOk, NobodyStranded, EraseFirst;
    var w' := Happen(w, Drop(client));
    SlotsDrop(w, client);
    AttendedKeeps(w, w');
    assert SlotsOk(w') by {
      var v := w.(slots := EraseFirst(w.slots, client), sessions := w.sessions - {client});
      assert SlotsOk(v);
    }
  }

  lemma CommittedKeeps(w: World, e: Entry)
    requires WorldInv(w) && w.progress.Idle?
    ensures WorldInv(Happen(w, Committed(e)))
  {
    ReactKeeps(w.queue, Log(e));
    hide QueueInv;
    var w' := Happen(w, Committed(e));
    assert forall id :: id in w'.queue.consumerOf ==>
                          id in w.queue.consumerOf && w'.queue.consumerOf[id] == w.queue.consumerOf[id];
  }

  /** Picking a consumer is safe exactly when the partition is registered or client 1 is looked after. */
  lemma PickKeepsIff(w: World)
    requires WorldInv(w) && Possible(w, Pick)
    ensures WorldInv(Happen(w, Pick)) <==> w.registered || Attended(w, 1)
  {
    hide QueueInv;
    var w', rest := Happen(w, Pick), w.progress.rest;
    assert rest == [rest[0]] + rest[1..];
    assert Distinct(rest[1..]) && rest[0] !in rest[1..];
    assert forall k :: 0 <= k < |rest| - 1 ==> rest[1..][k] == rest[k + 1];
  }

  lemma RecordKeeps(w: World)
    requires WorldInv(w) && Possible(w, Record)
    ensures WorldInv(Happen(w, Record))
  {
    DeliverKeepsIff(w.queue, w.progress.id, w.progress.client);
    hide QueueInv;
  }

  lemma TaskKeeps(w: World, client: int)
    requires WorldInv(w) && Possible(w, Task(client))
    ensures WorldInv(Happen(w, Task(client)))
    ensures forall id :: id in Happen(w, Task(client)).queue.consumerOf ==>
                           Happen(w, Task(client)).queue.consumerOf[id] != client
  {
    DisconnectKeeps(w.queue, client);
    var w' := Happen(w, Task(client));
    forall id | id in w'.queue.consumerOf
      ensures id in w.queue.consumerOf && w'.queue.consumerOf[id] == w.queue.consumerOf[id] != client
    {
      assert id in Held(w.queue.byConsumer, w.queue.consumerOf[id]);
    }
  }

  lemma HappenKeeps(w: World, ev: Event)
    requires WorldInv(w) && Possible(w, ev) && Proper(w, ev)
    ensures WorldInv(Happen(w, ev))
  {
    match ev
    case Connect(_) => AttendedKeeps(w, Happen(w, ev));
    case Open(client) => OpenKeepsIff(w, client);
    case Drop(client) => DropKeeps(w, client);
    case Committed(e) => CommittedKeeps(w, e);
    case Start(ids) => assert forall k :: 0 <= k < |ids| ==> ids[k] in ids;
    case Pick => PickKeepsIff(w);
    case Record => RecordKeeps(w);
    case Finish =>
    case Answer => AttendedKeeps(w, Happen(w, Answer));
    case Task(client) => TaskKeeps(w, client);
  }

  ghost predicate IsHistory(worlds: seq<World>, events: seq<Event>) {
    && |worlds| == |events| + 1 && worlds[0] == START
    && forall k :: 0 <= k < |events| ==> Possible(worlds[k], events[k]) && worlds[k + 1] == Happen(worlds[k], events[k])
  }

  ghost predicate ProperHistory(worlds: seq<World>, events: seq<Event>) {
    IsHistory(worlds, events) && forall k :: 0 <= k < |events| ==> Proper(worlds[k], events[k])
  }

  lemma StartInv()
    ensures WorldInv(START)
  {
  }

  lemma {:induction false} InvAlways(worlds: seq<World>, events: seq<Event>, k: nat)
    requires ProperHistory(worlds, events) && k <= |events|
    ensures WorldInv(worlds[k])
  {
    hide WorldInv, Possible, Happen, Proper;
    StartInv();
    if k > 0 {
      InvAlways(worlds, events, k - 1);
      assert Possible(worlds[k - 1], events[k - 1]) && Proper(worlds[k - 1], events[k - 1]);
      assert worlds[(k - 1) + 1] == Happen(worlds[k - 1], events[k - 1]);
      HappenKeeps(worlds[k - 1], events[k - 1]);
    }
  }

  /** Over every interleaving no message is stranded: whoever holds a message has a live session or a disconnect
      task waiting at the node. And a message is only ever sent to a live session. */
  lemma NoMessageStranded(worlds: seq<World>, events: seq<Event>, k: nat)
    requires ProperHistory(worlds, events) && k <= |events|
    ensures forall id :: id in worlds[k].queue.consumerOf ==> Attended(worlds[k], worlds[k].queue.consumerOf[id])
    ensures worlds[k].slots != [] ==> Turn(worlds[k].slots, worlds[k].count) in worlds[k].sessions
  {
    hide QueueInv, IsHistory, Proper;
    InvAlways(worlds, events, k);
  }

  // ---- both conditions are needed ----

  const MESSAGE := Entry(1, 1, 7, ADD, "m")
  const WAITING := Queue(map[7 := "m"], {7}, {}, map[], map[])
  const HELD_BY_1 := Queue(map[7 := "m"], {}, {}, map[1 := {7}], map[7 := 1])
  const HELD_BY_5 := Queue(map[7 := "m"], {}, {}, map[5 := {7}], map[7 := 5])

  lemma QueueFacts()
    ensures Apply(EMPTY, MESSAGE) == WAITING
    ensures Deliver(WAITING, 7, 1) == HELD_BY_1 && Deliver(WAITING, 7, 5) == HELD_BY_5
    ensures Disconnect(EMPTY, 5) == EMPTY
  {
  }

  /** One more event of a history. */
  lemma Then(worlds: seq<World>, events: seq<Event>, ev: Event, w: World) returns (more: seq<World>)
    requires IsHistory(worlds, events) && Possible(worlds[|events|], ev) && Happen(worlds[|events|], ev) == w
    ensures IsHistory(more, events + [ev]) && |more| == |events| + 2 && more[|events| + 1] == w
  {
    hide Possible, Happen;
    more := worlds + [w];
    forall k | 0 <= k < |events| + 1
      ensures Possible(more[k], (events + [ev])[k]) && more[k + 1] == Happen(more[k], (events + [ev])[k])
    {
      if k < |events| {
        assert Possible(worlds[k], events[k]) && worlds[k + 1] == Happen(worlds[k], events[k]);
      }
    }
  }

  /** A pass at a partition nobody has opened strands its message at client 1, which nobody is. */
  lemma UnopenedStrands() returns (worlds: seq<World>, events: seq<Event>)
    ensures IsHistory(worlds, events) && |events| == 4
    ensures var w := worlds[4]; 7 in w.queue.consumerOf && !Attended(w, w.queue.consumerOf[7])
  {
    hide Apply, Deliver, Disconnect, IsHistory;
    QueueFacts();
    worlds, events := Begin();
    var w := START.(queue := WAITING);
    worlds := Then(worlds, events, Committed(MESSAGE), w);
    events := events + [Committed(MESSAGE)];
    worlds := Then(worlds, events, Start([7]), w.(progress := Passing([7])));
    events := events + [Start([7])];
    assert [7][0] == 7 && [7][1..] == [];
    worlds := Then(worlds, events, Pick, w.(progress := Picked([], 7, 1)));
    events := events + [Pick];
    worlds := Then(worlds, events, Record, START.(queue := HELD_BY_1, progress := Passing([])));
    events := events + [Record];
  }

  lemma Begin() returns (worlds: seq<World>, events: seq<Event>)
    ensures IsHistory(worlds, events) && events == [] && |worlds| == 1 && worlds[0] == START
  {
    worlds, events := [START], [];
  }

  /** A client that opens twice and leaves keeps a slot: after its disconnect has been dealt with it is given a message. */
  lemma SecondOpenStrands() returns (worlds: seq<World>, events: seq<Event>)
    ensures IsHistory(worlds, events) && |events| == 9
    ensures var w := worlds[9];
            7 in w.queue.consumerOf && !Attended(w, w.queue.consumerOf[7]) && w.slots == [5] && w.sessions == {}
  {
    hide Apply, Deliver, Disconnect, IsHistory;
    QueueFacts();
    worlds, events := LeftBehind();
    var w := START.(registered := true, slots := [5], queue := WAITING);
    worlds := Then(worlds, events, Committed(MESSAGE), w);
    events := events + [Committed(MESSAGE)];
    worlds := Then(worlds, events, Start([7]), w.(progress := Passing([7])));
    events := events + [Start([7])];
    assert [7][0] == 7 && [7][1..] == [] && Turn([5], 0) == 5;
    worlds := Then(worlds, events, Pick, w.(progress := Picked([], 7, 5), count := 1));
    events := events + [Pick];
    worlds := Then(worlds, events, Record, w.(queue := HELD_BY_5, count := 1, progress := Passing([])));
    events := events + [Record];
  }

  lemma LeftBehind() returns (worlds: seq<World>, events: seq<Event>)
    ensures IsHistory(worlds, events) && |events| == 5 && |worlds| == 6
    ensures worlds[5] == START.(registered := true, slots := [5])
  {
    hide Apply, Deliver, Disconnect, IsHistory;
    QueueFacts();
    worlds, events := Begin();
    var w := START.(sessions := {5});
    worlds := Then(worlds, events, Connect(5), w);
    events := events + [Connect(5)];
    worlds := Then(worlds, events, Open(5), w.(registered := true, slots := [5]));
    events := events + [Open(5)];
    worlds := Then(worlds, events, Open(5), w.(registered := true, slots := [5, 5]));
    events := events + [Open(5)];
    assert EraseFirst([5, 5], 5) == [5];
    worlds := Then(worlds, events, Drop(5), START.(registered := true, slots := [5], tasks := multiset{5}));
    events := events + [Drop(5)];
    worlds := Then(worlds, events, Task(5), START.(registered := true, slots := [5]));
    events := events + [Task(5)];
  }
}
