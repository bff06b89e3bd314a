/** The message queue object of a node. */
module MessageQueues {
  import opened Queues

  class MessageQueue {
    var store: map<int, string>
    var undelivered: set<int>
    var committed: set<int>
    var byConsumer: map<int, set<int>>
    var consumerOf: map<int, int>

    ghost function View(): Queue
      reads this
    {
      Queue(store, undelivered, committed, byConsumer, consumerOf)
    }

    constructor ()
      ensures View() == EMPTY
    {
      store, undelivered, committed, byConsumer, consumerOf := map[], {}, {}, map[], map[];
    }

    method InsertMessage(id: int, text: string) returns (code: int)
      modifies this
      ensures View() == Insert(old(View()), id, text)
      ensures code == if id in old(store) then 1 else 0
    {
      if id in store {
        return 1;
      }
      store := store[id := text];
      undelivered := undelivered + {id};
      return 0;
    }

    method CommitMessage(id: int) returns (code: int)
      modifies this
      ensures View() == Commit(old(View()), id)
      ensures code == if id in old(store) then 0 else 1
    {
      if id !in store {
        return 1;
      }
      if id in consumerOf {
        var client := consumerOf[id];
        byConsumer := byConsumer[client := Held(byConsumer, client) - {id}];
        consumerOf := consumerOf - {id};
      }
      committed := committed + {id};
      undelivered := undelivered - {id};
      return 0;
    }

    method GetMessage(id: int) returns (text: string)
      modifies this
      ensures View() == Fetch(old(View()), id)
      ensures id in store && text == store[id]
    {
      if id !in store {
        store := store[id := ""];
      }
      text := store[id];
    }

    /** The undelivered ids in ascending order, each once. */
    method GetAllUndeliveredMessages() returns (ids: seq<int>)
      ensures forall x :: x in ids <==> x in undelivered
      ensures forall i, j :: 0 <= i < j < |ids| ==> ids[i] < ids[j]
    {
      ids := [];
      var rest := undelivered;
      while rest != {}
        invariant forall x :: x in ids || x in rest <==> x in undelivered
        invariant forall i, j :: 0 <= i < j < |ids| ==> ids[i] < ids[j]
        invariant forall x, y :: x in ids && y in rest ==> x < y
        decreases rest
      {
        ghost var witnessed := LeastOf(rest);
        var least :| least in rest && forall x :: x in rest ==> least <= x;
        assert forall k :: 0 <= k < |ids| ==> ids[k] in ids;
        ids := ids + [least];
        rest := rest - {least};
      }
    }

    method DeliverMessageToClientId(id: int, client: int)
      modifies this
      ensures View() == Deliver(old(View()), id, client)
    {
      undelivered := undelivered - {id};
      byConsumer := byConsumer[client := Held(byConsumer, client) + {id}];
      consumerOf := consumerOf[id := client];
    }

    method HandleClientDisconnected(client: int) returns (code: int)
      modifies this
      ensures View() == Disconnect(old(View()), client)
      ensures code == if client in old(byConsumer) then 0 else 1
    {
      if client !in byConsumer {
        return 1;
      }
      var held := byConsumer[client];
      var rest := held;
      while rest != {}
        invariant rest <= held
        invariant byConsumer == old(byConsumer) && store == old(store) && committed == old(committed)
        invariant undelivered == old(undelivered) + (held - rest)
        invariant consumerOf == old(consumerOf) - (held - rest)
        decreases rest
      {
        SomeMember(rest);
        var id :| id in rest;
        undelivered := undelivered + {id};
        consumerOf := consumerOf - {id};
        rest := rest - {id};
      }
      byConsumer := byConsumer - {client};
      return 0;
    }
  }

  lemma SomeMember(s: set<int>)
    ensures s != {} ==> exists x :: x in s
  {
    assert (forall x :: x !in s) ==> s == {};
  }

  lemma {:induction false} LeastOf(s: set<int>) returns (least: int)
    requires s != {}
    ensures least in s && forall y :: y in s ==> least <= y
    decreases |s|
  {
    SomeMember(s);
    least :| least in s;
    if s != {least} {
      var rest := LeastOf(s - {least});
      assert forall y :: y in s ==> y == least || y in s - {least};
      if rest < least {
        least := rest;
      }
    }
  }
}
