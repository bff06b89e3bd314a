/** One delivery pass of a leader: every undelivered message goes to the next consumer slot in turn. */
module Delivery {
  import opened Queues

  /** The slot of the message delivered when the counter stands at `count`. */
  function Turn(slots: seq<int>, count: nat): int
    requires slots != []
  {
    slots[count % |slots|]
  }

  /** The queue after the messages of the snapshot were given out in turn. */
  function Pass(q: Queue, ids: seq<int>, slots: seq<int>, count: nat): Queue
    requires slots != []
    decreases |ids|
  {
    if ids == [] then q else
      var k := |ids| - 1;
      Deliver(Pass(q, ids[..k], slots, count), ids[k], Turn(slots, count + k))
  }

  ghost predicate Distinct(ids: seq<int>) {
    forall i, j :: 0 <= i < j < |ids| ==> ids[i] != ids[j]
  }

  lemma DistinctPrefix(ids: seq<int>, k: nat)
    requires Distinct(ids) && k < |ids|
    ensures Distinct(ids[..k]) && ids[k] !in ids[..k]
  {
  }

  lemma DeliverEffect(q: Queue, id: int, client: int)
    requires QueueInv(q) && id in q.undelivered
    ensures var r := Deliver(q, id, client);
            && QueueInv(r) && r.store == q.store && r.committed == q.committed
            && r.undelivered == q.undelivered - {id} && r.consumerOf == q.consumerOf[id := client]
            && id !in q.consumerOf
  {
    DeliverKeepsIff(q, id, client);
  }

  /** Queue `r` is `q` with the messages `ids` given out in turn: each is at the slot whose turn it was, the others stay
      undelivered, and stored, committed and already delivered messages are not touched. */
  ghost predicate GivenOut(q: Queue, r: Queue, ids: seq<int>, slots: seq<int>, count: nat)
    requires slots != []
  {
    && r.store == q.store && r.committed == q.committed
    && (forall x :: x in r.undelivered <==> x in q.undelivered && x !in ids)
    && (forall x :: x in q.consumerOf ==> x in r.consumerOf && r.consumerOf[x] == q.consumerOf[x])
    && (forall k :: 0 <= k < |ids| ==> ids[k] in r.consumerOf && r.consumerOf[ids[k]] == Turn(slots, count + k))
  }

  lemma GivenOutNext(q: Queue, before: Queue, r: Queue, ids: seq<int>, id: int, slots: seq<int>, count: nat)
    requires slots != [] && GivenOut(q, before, ids, slots, count)
    requires id in before.undelivered && id !in before.consumerOf
    requires r.store == before.store && r.committed == before.committed
    requires r.undelivered == before.undelivered - {id}
    requires r.consumerOf == before.consumerOf[id := Turn(slots, count + |ids|)]
    ensures GivenOut(q, r, ids + [id], slots, count)
  {
    hide Turn;
  }

  /** A pass gives out the messages of the snapshot in turn. */
  lemma {:induction false} PassEffect(q: Queue, ids: seq<int>, slots: seq<int>, count: nat)
    requires QueueInv(q) && slots != [] && Distinct(ids) && forall k :: 0 <= k < |ids| ==> ids[k] in q.undelivered
    ensures QueueInv(Pass(q, ids, slots, count)) && GivenOut(q, Pass(q, ids, slots, count), ids, slots, count)
  {
    hide QueueInv, Turn, Deliver;
    if ids != [] {
      var k := |ids| - 1;
      DistinctPrefix(ids, k);
      hide Distinct;
      PassEffect(q, ids[..k], slots, count);
      PassEffectNext(q, ids, slots, count);
    }
  }

  lemma PassEffectNext(q: Queue, ids: seq<int>, slots: seq<int>, count: nat)
    requires slots != [] && ids != []
    requires var k := |ids| - 1;
             var before := Pass(q, ids[..k], slots, count);
             QueueInv(before) && GivenOut(q, before, ids[..k], slots, count) && ids[k] in before.undelivered
    ensures QueueInv(Pass(q, ids, slots, count)) && GivenOut(q, Pass(q, ids, slots, count), ids, slots, count)
  {
    hide QueueInv, GivenOut, Turn, Deliver;
    var k := |ids| - 1;
    var before := Pass(q, ids[..k], slots, count);
    DeliverEffect(before, ids[k], Turn(slots, count + k));
    GivenOutNext(q, before, Pass(q, ids, slots, count), ids[..k], ids[k], slots, count);
    assert ids == ids[..k] + [ids[k]];
  }

  /** A pass over all undelivered messages leaves none undelivered. */
  lemma PassEmpties(q: Queue, ids: seq<int>, slots: seq<int>, count: nat)
    requires QueueInv(q) && slots != [] && Distinct(ids) && (forall x :: x in ids <==> x in q.undelivered)
    ensures Pass(q, ids, slots, count).undelivered == {}
    ensures Delivered(Pass(q, ids, slots, count)) == Delivered(q) + q.undelivered
  {
    forall k | 0 <= k < |ids| ensures ids[k] in q.undelivered {
      assert ids[k] in ids;
    }
    PassEffect(q, ids, slots, count);
    var r := Pass(q, ids, slots, count);
    forall x ensures x in Delivered(r) <==> x in Delivered(q) + q.undelivered {
    }
  }

  // ---- fairness ----

  /** How many of the `k` messages delivered from counter `count` on go to slot j of n. */
  function Share(count: nat, k: nat, n: nat, j: nat): nat
    requires n > 0
    decreases k
  {
    if k == 0 then 0 else Share(count, k - 1, n, j) + if (count + k - 1) % n == j then 1 else 0
  }

  lemma Distributes(n: int, a: int, b: int)
    ensures n * (a + b) == n * a + n * b && n * (a - b) == n * a - n * b
  {
  }

  lemma Product(n: int, d: int)
    requires n > 0
    ensures d > 0 ==> n * d >= n
    ensures d < 0 ==> n * d + n <= 0
    ensures n * (d + 1) == n * d + n && n * (d - 1) == n * d - n
  {
    Distributes(n, d, 1);
  }

  lemma DivUnique(x: nat, n: nat, q: int, r: nat)
    requires n > 0 && x == n * q + r && r < n
    ensures x / n == q && x % n == r
  {
    var d := q - x / n;
    Distributes(n, q, x / n);
    Product(n, d);
  }

  lemma DivNext(x: nat, n: nat)
    requires n > 0
    ensures (x + 1) / n == x / n + if x % n == n - 1 then 1 else 0
    ensures (x + 1) % n == if x % n == n - 1 then 0 else x % n + 1
  {
    if x % n == n - 1 {
      assert x + 1 == n * (x / n + 1);
      DivUnique(x + 1, n, x / n + 1, 0);
    } else {
      DivUnique(x + 1, n, x / n, x % n + 1);
    }
  }

  /** How many numbers below x leave remainder j. */
  function Below(x: nat, n: nat, j: nat): nat
    requires n > 0
  {
    x / n + if j < x % n then 1 else 0
  }

  lemma {:induction false} ShareIs(count: nat, k: nat, n: nat, j: nat)
    requires j < n
    ensures Share(count, k, n, j) == Below(count + k, n, j) - Below(count, n, j)
  {
    if k > 0 {
      ShareIs(count, k - 1, n, j);
      DivNext(count + k - 1, n);
    }
  }

  lemma RoundingBounds(k: nat, n: nat, d: int, a: nat, b: nat, j: nat)
    requires a < n && b < n && j < n && k == n * d + b - a
    ensures k / n <= d + (if j < b then 1 else 0) - (if j < a then 1 else 0) <= (k + n - 1) / n
  {
    Product(n, d);
    if b > a {
      DivUnique(k, n, d, b - a);
      DivUnique(k + n - 1, n, d + 1, b - a - 1);
    } else if b == a {
      DivUnique(k, n, d, 0);
      DivUnique(k + n - 1, n, d, n - 1);
    } else {
      DivUnique(k, n, d - 1, n + b - a);
      DivUnique(k + n - 1, n, d, n + b - a - 1);
    }
  }

  lemma DivDifference(count: nat, k: nat, n: nat)
    requires n > 0
    ensures k == n * ((count + k) / n - count / n) + (count + k) % n - count % n
  {
    Distributes(n, (count + k) / n, count / n);
  }

  /** From any starting counter, every slot gets k/n messages, rounded down or up. */
  lemma FairShare(count: nat, k: nat, n: nat, j: nat)
    requires j < n
    ensures k / n <= Share(count, k, n, j) <= (k + n - 1) / n
  {
    hide Share;
    ShareIs(count, k, n, j);
    DivDifference(count, k, n);
    RoundingBounds(k, n, (count + k) / n - count / n, count % n, (count + k) % n, j);
  }

  /** The messages of the snapshot that slot j of n gets, in order. */
  function GivenTo(ids: seq<int>, count: nat, n: nat, j: nat): seq<int>
    requires n > 0
    decreases |ids|
  {
    if ids == [] then [] else
      var k := |ids| - 1;
      GivenTo(ids[..k], count, n, j) + if (count + k) % n == j then [ids[k]] else []
  }

  lemma {:induction false} GivenShare(ids: seq<int>, count: nat, n: nat, j: nat)
    requires n > 0
    ensures |GivenTo(ids, count, n, j)| == Share(count, |ids|, n, j)
    ensures forall x :: x in GivenTo(ids, count, n, j) <==> exists k :: 0 <= k < |ids| && ids[k] == x && (count + k) % n == j
  {
    if ids != [] {
      var k := |ids| - 1;
      GivenShare(ids[..k], count, n, j);
      assert forall i :: 0 <= i < k ==> ids[..k][i] == ids[i];
    }
  }

  lemma {:induction false} GivenDistinct(ids: seq<int>, count: nat, n: nat, j: nat)
    requires n > 0 && Distinct(ids)
    ensures Distinct(GivenTo(ids, count, n, j))
  {
    if ids != [] {
      var k := |ids| - 1;
      DistinctPrefix(ids, k);
      GivenDistinct(ids[..k], count, n, j);
      GivenShare(ids[..k], count, n, j);
      assert forall x :: x in GivenTo(ids[..k], count, n, j) ==> x in ids[..k];
    }
  }

  /** A whole pass: nothing stays undelivered, and every slot gets its consumer a fair share, k/n rounded down or up,
      each message once, from any starting counter; when no consumer has two slots, that is all the consumer gets. */
  lemma PassIsFair(q: Queue, ids: seq<int>, slots: seq<int>, count: nat, j: nat)
    requires QueueInv(q) && Distinct(ids) && (forall x :: x in ids <==> x in q.undelivered)
    requires j < |slots|
    ensures var r, mine, n := Pass(q, ids, slots, count), GivenTo(ids, count, |slots|, j), |slots|;
            && r.undelivered == {}
            && |ids| / n <= |mine| <= (|ids| + n - 1) / n && Distinct(mine)
            && (forall x :: x in ids ==> x in r.consumerOf)
            && (forall x :: x in mine ==> x in ids && r.consumerOf[x] == slots[j])
            && (Distinct(slots) ==> forall x :: x in ids ==> (r.consumerOf[x] == slots[j] <==> x in mine))
  {
    hide QueueInv, Share, GivenTo, Pass, GivenOut;
    PassEmpties(q, ids, slots, count);
    GivenShare(ids, count, |slots|, j);
    GivenDistinct(ids, count, |slots|, j);
    FairShare(count, |ids|, |slots|, j);
    forall k | 0 <= k < |ids| ensures ids[k] in q.undelivered {
      assert ids[k] in ids;
    }
    PassEffect(q, ids, slots, count);
    forall x | x in ids ensures GivesRightly(Pass(q, ids, slots, count), ids, slots, count, j, x) {
      SlotGets(q, Pass(q, ids, slots, count), ids, slots, count, j, x);
    }
  }

  /** Message x is at a consumer; at that of slot j if it is among the messages of the slot, and only then
      when no consumer has two slots. */
  ghost predicate GivesRightly(r: Queue, ids: seq<int>, slots: seq<int>, count: nat, j: nat, x: int)
    requires j < |slots|
  {
    && x in r.consumerOf
    && (x in GivenTo(ids, count, |slots|, j) ==> r.consumerOf[x] == slots[j])
    && (Distinct(slots) && r.consumerOf[x] == slots[j] ==> x in GivenTo(ids, count, |slots|, j))
  }

  lemma SlotGets(q: Queue, r: Queue, ids: seq<int>, slots: seq<int>, count: nat, j: nat, x: int)
    requires j < |slots| && GivenOut(q, r, ids, slots, count) && Distinct(ids) && x in ids
    ensures GivesRightly(r, ids, slots, count, j, x)
  {
    hide GivenTo;
    GivenShare(ids, count, |slots|, j);
    var k :| 0 <= k < |ids| && ids[k] == x;
    assert r.consumerOf[x] == slots[(count + k) % |slots|];
    assert x in GivenTo(ids, count, |slots|, j) <==> (count + k) % |slots| == j;
  }
}
