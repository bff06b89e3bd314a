/** A node that stops and starts again from its files, in runs with a single winner. Storage is given
    only the entry at the new commit index, and a flush that cannot open the log file drops its entries, so what
    comes back is the committed log exactly when the commit index went up by one each time and nothing was dropped. */
module Restart {
  import opened Types
  import opened NodeSteps
  import opened Clusters
  import opened Shape
  import opened SingleWinner
  import opened Queues
  import opened LogFiles
  import opened Storage
  import opened Decimal

  /** The commit index took every value in turn. */
  ghost predicate ByOne(advances: seq<int>) {
    forall k :: 0 <= k < |advances| ==> advances[k] == k + 1
  }

  ghost predicate Increasing(s: seq<int>) {
    forall j, k :: 0 <= j < k < |s| ==> s[j] < s[k]
  }

  lemma {:induction false} IncreasingBound(s: seq<int>, k: nat)
    requires Increasing(s) && k < |s| && s[0] >= 1
    ensures s[k] >= k + 1
  {
    if k > 0 {
      IncreasingBound(s, k - 1);
      assert s[k - 1] < s[k];
    }
  }

  lemma {:induction false} IncreasingGap(s: seq<int>, k: nat)
    requires Increasing(s) && k < |s|
    ensures s[|s| - 1] - s[k] >= |s| - 1 - k
    decreases |s| - k
  {
    if k + 1 < |s| {
      IncreasingGap(s, k + 1);
      assert s[k] < s[k + 1];
    }
  }

  /** Storage has the applied entries exactly when every advance was by one. */
  lemma StoredIsAppliedIff(n: Node, log: seq<Entry>, commit: int)
    requires NodeSafe(n, log, commit) && StoredSafe(n)
    ensures n.stored == n.applied <==> ByOne(n.advances)
  {
    if ByOne(n.advances) {
      assert n.commit == |n.advances|;
      forall k | 0 <= k < |n.applied| ensures n.stored[k] == n.applied[k] {
        assert n.advances[k] == k + 1;
      }
    }
    if n.stored == n.applied {
      forall k | 0 <= k < |n.advances| ensures n.advances[k] == k + 1 {
        IncreasingBound(n.advances, k);
        IncreasingGap(n.advances, k);
      }
    }
  }

  /** One advance keeps storage complete exactly when it is by one. */
  lemma AdvanceStoresIff(n: Node, to: int)
    requires 0 <= n.commit < to < |n.log| && n.stored == n.applied
    ensures var m := CommitTo(n, to);
            m.stored == m.applied <==> to == n.commit + 1
  {
    var m := CommitTo(n, to);
    assert |m.applied| == |n.applied| + (to - n.commit);
    assert |m.stored| == |n.stored| + 1;
  }

  /** The events at the disk of a node are its stores, in order, with flushes anywhere between, and a flush last. */
  ghost predicate FlushedDisk(n: Node, metadata: int, events: seq<DiskEvent>) {
    && events != [] && events[|events| - 1].Flush?
    && Stored(events) == n.stored
    && (n.advances != [] ==> LastMetadata(events, metadata) == n.commit)
  }

  /** Both files empty; the metadata buffer holds anything. */
  function EmptyDisk(metadata: int): Disk {
    Disk([], metadata, [], [])
  }

  /** What a restart from the disk left by `events` gives, compared with node `n` and its queue `q` before: loading
      gives the committed log exactly when every commit advance was by one and no failed flush dropped anything;
      then the log, the stored messages and the committed messages are the ones before, every other message is
      undelivered, and the commit index is the one before if the last flush could write it. */
  ghost predicate Restarted(n: Node, q: Queue, codec: Codec, d: Disk, events: seq<DiskEvent>)
    requires events != [] && events[|events| - 1].Flush?
  {
    var loaded := LoadEntries(codec, d);
    && 0 <= n.commit < |n.log| && n.applied == n.log[1..n.commit + 1]
    && (loaded == n.stored <==> Lossless(events))
    && (loaded == n.applied <==> ByOne(n.advances) && Lossless(events))
    && (loaded == n.applied ==>
          && [SENTINEL] + loaded == n.log[..n.commit + 1]
          && (events[|events| - 1].metadataOpens && 0 < n.commit <= INT_MAX ==> LoadCommit(d) == n.commit)
          && Replay(loaded).store == q.store && Replay(loaded).committed == q.committed
          && Replay(loaded).undelivered == q.store.Keys - q.committed
          && Delivered(Replay(loaded)) == {})
  }

  /** The queue a replay leaves: everything not committed is undelivered. */
  lemma ReplayedQueue(entries: seq<Entry>, queue: seq<Event>)
    requires Legal(queue) && LogOf(queue) == entries
    ensures var r, q := Replay(entries), After(queue);
            && r.store == q.store && r.committed == q.committed
            && r.undelivered == q.store.Keys - q.committed && Delivered(r) == {}
  {
    PersistedIsReplay(queue);
    ReplayInv(entries);
  }

  /** What was written is what was applied exactly when all of it was stored and none of it lost. */
  lemma WrittenIsAppliedIff(n: Node, log: seq<Entry>, commit: int, events: seq<DiskEvent>)
    requires NodeSafe(n, log, commit) && StoredSafe(n)
    requires events != [] && events[|events| - 1].Flush? && Stored(events) == n.stored
    ensures Written(events) == n.stored <==> Lossless(events)
    ensures Written(events) == n.applied <==> ByOne(n.advances) && Lossless(events)
  {
    hide Lossless, ByOne;
    NothingLostIff(events);
    assert Waiting(events) == [] && Written(events) + [] == Written(events);
    StoredIsAppliedIff(n, log, commit);
    StoredNotLonger(n, log, commit);
    hide Written, Stored, NodeSafe, StoredSafe;
  }

  lemma StoredNotLonger(n: Node, log: seq<Entry>, commit: int)
    requires NodeSafe(n, log, commit) && StoredSafe(n)
    ensures |n.stored| <= |n.applied|
  {
    if n.advances != [] {
      IncreasingBound(n.advances, |n.advances| - 1);
    }
  }

  lemma LoadFromEmpty(codec: Codec, metadata: int, events: seq<DiskEvent>)
    requires events != [] && events[|events| - 1].Flush? && Faithful(codec, Stored(events))
    ensures var d := DiskAfter(codec, EmptyDisk(metadata), events);
            && LoadEntries(codec, d) == Written(events)
            && (events[|events| - 1].metadataOpens && 0 <= LastMetadata(events, metadata) <= INT_MAX ==>
                  LoadCommit(d) == LastMetadata(events, metadata))
  {
    hide DiskAfter, LoadEntries, LoadCommit, Faithful, Stored, Written, LastMetadata, Lossless, Frames, EncodeEntries;
    NoFrames(codec);
    assert [] + Stored(events) == Stored(events) && [] + Written(events) == Written(events);
    LoadAfterFlush(codec, [], EmptyDisk(metadata), events);
  }

  lemma RestartNode(n: Node, log: seq<Entry>, commit: int,
                    codec: Codec, metadata: int, events: seq<DiskEvent>, queue: seq<Event>)
    requires NodeSafe(n, log, commit) && StoredSafe(n) && n.log[0] == SENTINEL
    requires FlushedDisk(n, metadata, events) && Faithful(codec, n.stored)
    requires Legal(queue) && LogOf(queue) == n.applied
    ensures Restarted(n, After(queue), codec, DiskAfter(codec, EmptyDisk(metadata), events), events)
  {
    hide EmptyDisk, DiskAfter, LoadEntries, LoadCommit, Replay, After, Faithful, Legal, LogOf, Stored, Written,
      LastMetadata, Lossless, ByOne;
    LoadFromEmpty(codec, metadata, events);
    WrittenIsAppliedIff(n, log, commit, events);
    ReplayedQueue(n.applied, queue);
    assert [SENTINEL] + n.log[1..n.commit + 1] == n.log[..n.commit + 1];
  }

  /** Restart equivalence, for every interleaving of stores and flushes and of queue events. */
  lemma RestartEquivalence(states: seq<Cluster>, steps: seq<Step>, w: int, k: nat, i: int,
                           codec: Codec, metadata: int, events: seq<DiskEvent>, queue: seq<Event>)
    requires SoleRun(states, steps, w) && k <= |steps| && 0 <= i < |states[k].nodes|
    requires FlushedDisk(states[k].nodes[i], metadata, events) && Faithful(codec, states[k].nodes[i].stored)
    requires Legal(queue) && LogOf(queue) == states[k].nodes[i].applied
    ensures Restarted(states[k].nodes[i], After(queue), codec, DiskAfter(codec, EmptyDisk(metadata), events), events)
  {
    hide SafeInv, NodeSafe, StoredSafe, Restarted, Faithful, Legal, LogOf;
    RestartFacts(states, steps, w, k, i);
    RestartNode(states[k].nodes[i], states[k].nodes[w].log, states[k].nodes[w].commit, codec, metadata, events, queue);
  }

  lemma RestartFacts(states: seq<Cluster>, steps: seq<Step>, w: int, k: nat, i: int)
    requires SoleRun(states, steps, w) && k <= |steps| && 0 <= i < |states[k].nodes|
    ensures 0 <= w < |states[k].nodes|
    ensures var n := states[k].nodes[i];
            && NodeSafe(n, states[k].nodes[w].log, states[k].nodes[w].commit) && StoredSafe(n)
            && |n.log| > 0 && n.log[0] == SENTINEL
  {
    SafeReachable(states, steps, w, k);
    LogShape(states, steps, k);
    assert NodeShape(states[k].nodes[i], i, |states[k].nodes|);
  }
}
