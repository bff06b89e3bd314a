/** What the nodes of a cluster agree on: the persisted state of their queues. */
module ReplicatedQueue {
  import opened Clusters
  import opened SingleWinner
  import opened Queues

  /** Two nodes at the same commit index have applied the same entries. */
  lemma SameApplied(states: seq<Cluster>, steps: seq<Step>, w: int, k: nat, l: nat, i: int, j: int)
    requires SoleRun(states, steps, w) && k <= l <= |steps|
    requires 0 <= i < |states[k].nodes| && 0 <= j < |states[l].nodes|
    requires states[k].nodes[i].commit == states[l].nodes[j].commit
    ensures states[k].nodes[i].applied == states[l].nodes[j].applied
  {
    hide Next, Enabled, Init;
    StateMachineSafety(states, steps, w, k, l, i, j);
    StateMachineSafety(states, steps, w, l, l, j, j);
    assert |states[k].nodes[i].applied| == |states[l].nodes[j].applied|;
  }

  /** Two nodes at the same commit index, at any two moments of a run with a single winner and whatever they
      delivered in between, store the same messages, have the same ones committed, and have the same
      ones to deliver: undelivered here is undelivered or out at a consumer there. */
  lemma SameQueue(states: seq<Cluster>, steps: seq<Step>, w: int, k: nat, l: nat, i: int, j: int,
                  mine: seq<Event>, yours: seq<Event>)
    requires SoleRun(states, steps, w) && k <= l <= |steps|
    requires 0 <= i < |states[k].nodes| && 0 <= j < |states[l].nodes|
    requires states[k].nodes[i].commit == states[l].nodes[j].commit
    requires Legal(mine) && LogOf(mine) == states[k].nodes[i].applied
    requires Legal(yours) && LogOf(yours) == states[l].nodes[j].applied
    ensures var a, b := After(mine), After(yours);
            && a.store == b.store && a.committed == b.committed
            && a.undelivered + Delivered(a) == b.undelivered + Delivered(b)
  {
    hide Next, Enabled, Init, Legal, After, LogOf, Replay;
    SameApplied(states, steps, w, k, l, i, j);
    hide SoleRun;
    PersistedIsReplay(mine);
    PersistedIsReplay(yours);
  }
}
