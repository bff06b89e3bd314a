/** The log of one node: its shape, the consistency test, and the loop that
    brings the entries of an append request into it. */
module Logs {
  import opened Types

  ghost predicate NonDecreasing(log: seq<Entry>) {
    forall i, j :: 0 <= i <= j < |log| ==> log[i].term <= log[j].term
  }

  /** Sentinel first, entry i carries index i, terms never decrease, no term above `term`. */
  ghost predicate WellFormed(log: seq<Entry>, term: int) {
    && |log| > 0
    && log[0] == SENTINEL
    && (forall i :: 0 <= i < |log| ==> log[i].index == i)
    && (forall i :: 0 <= i < |log| ==> log[i].term <= term)
    && NonDecreasing(log)
  }

  /** The entries of a request continue a log whose entry at `prevIndex` has term `prevTerm`. */
  ghost predicate WellFormedSlice(prevIndex: int, prevTerm: int, entries: seq<Entry>, term: int) {
    && prevIndex >= 0
    && prevTerm <= term
    && (forall i :: 0 <= i < |entries| ==> entries[i].index == prevIndex + 1 + i)
    && (forall i :: 0 <= i < |entries| ==> prevTerm <= entries[i].term <= term)
    && NonDecreasing(entries)
  }

  predicate InSync(log: seq<Entry>, prevTerm: int, prevIndex: int) {
    0 <= prevIndex < |log| && log[prevIndex].term == prevTerm
  }

  /** The append loop, from request entry `i` on. */
  function AppendFrom(log: seq<Entry>, prevIndex: int, entries: seq<Entry>, i: nat): seq<Entry>
    requires i <= |entries|
    decreases |entries| - i
  {
    if i == |entries| then log else
      var at := i + prevIndex + 1;
      if at > |log| - 1 then
        AppendFrom(log + [entries[i]], prevIndex, entries, i + 1)
      else if at < 0 || log[at].term == entries[i].term then
        AppendFrom(log, prevIndex, entries, i + 1)
      else
        AppendFrom(log[..at] + [entries[i]], prevIndex, entries, i + 1)
  }

  function Append(log: seq<Entry>, prevIndex: int, entries: seq<Entry>): seq<Entry> {
    AppendFrom(log, prevIndex, entries, 0)
  }

  /** Request entry i is already in the log, judged by its term. */
  ghost predicate Present(log: seq<Entry>, prevIndex: int, entries: seq<Entry>, i: int) {
    0 <= i < |entries| && 0 <= prevIndex + 1 + i < |log| && log[prevIndex + 1 + i].term == entries[i].term
  }

  /** `k` is the first request entry the log does not have: everything before it is present. */
  ghost predicate FirstMissing(log: seq<Entry>, prevIndex: int, entries: seq<Entry>, k: int) {
    && 0 <= k <= |entries|
    && (forall i :: 0 <= i < k ==> Present(log, prevIndex, entries, i))
    && (k < |entries| ==> !Present(log, prevIndex, entries, k))
  }

  lemma {:induction false} AppendTail(log: seq<Entry>, prevIndex: int, entries: seq<Entry>, i: nat)
    requires i <= |entries| && prevIndex >= 0
    requires |log| == prevIndex + 1 + i
    ensures AppendFrom(log, prevIndex, entries, i) == log + entries[i..]
    decreases |entries| - i
  {
    if i < |entries| {
      AppendTail(log + [entries[i]], prevIndex, entries, i + 1);
      assert log + [entries[i]] + entries[i + 1..] == log + entries[i..];
    } else {
      assert log + entries[i..] == log;
    }
  }

  lemma {:induction false} AppendSkips(log: seq<Entry>, prevIndex: int, entries: seq<Entry>, i: nat, k: nat)
    requires i <= k && prevIndex >= 0 && FirstMissing(log, prevIndex, entries, k)
    ensures AppendFrom(log, prevIndex, entries, i) == AppendFrom(log, prevIndex, entries, k)
    decreases k - i
  {
    if i < k {
      assert Present(log, prevIndex, entries, i);
      AppendSkips(log, prevIndex, entries, i + 1, k);
    }
  }

  /** What the append loop computes: the log up to the first missing entry, then
      the rest of the request; nothing changes when every entry is present. */
  lemma AppendIs(log: seq<Entry>, prevIndex: int, entries: seq<Entry>, k: nat)
    requires 0 <= prevIndex < |log| && FirstMissing(log, prevIndex, entries, k)
    ensures prevIndex + 1 + k <= |log|
    ensures Append(log, prevIndex, entries) ==
            if k == |entries| then log else log[..prevIndex + 1 + k] + entries[k..]
  {
    var at := prevIndex + 1 + k;
    if k > 0 {
      assert Present(log, prevIndex, entries, k - 1);
    }
    AppendSkips(log, prevIndex, entries, 0, k);
    if k < |entries| {
      assert log[..at] + [entries[k]] + entries[k + 1..] == log[..at] + entries[k..];
      if at == |log| {
        assert log[..at] == log;
      }
      AppendTail(log[..at] + [entries[k]], prevIndex, entries, k + 1);
    }
  }

  /** Every request has a first missing position, at the end when nothing is missing. */
  lemma FirstMissingExists(log: seq<Entry>, prevIndex: int, entries: seq<Entry>) returns (k: nat)
    ensures FirstMissing(log, prevIndex, entries, k)
  {
    k := 0;
    while k < |entries| && Present(log, prevIndex, entries, k)
      invariant k <= |entries|
      invariant forall i :: 0 <= i < k ==> Present(log, prevIndex, entries, i)
    {
      k := k + 1;
    }
  }

  /** The append loop keeps the log up to `prevIndex`, ends with every request entry present
      by term, and either leaves the log alone or ends it exactly with the request. */
  lemma AppendKeepsPrefix(log: seq<Entry>, prevIndex: int, entries: seq<Entry>)
    requires 0 <= prevIndex < |log|
    ensures var r := Append(log, prevIndex, entries);
            && prevIndex + |entries| < |r|
            && r[..prevIndex + 1] == log[..prevIndex + 1]
            && FirstMissing(r, prevIndex, entries, |entries|)
            && (r == log || |r| == prevIndex + 1 + |entries|)
  {
    var r := Append(log, prevIndex, entries);
    var k := FirstMissingExists(log, prevIndex, entries);
    AppendIs(log, prevIndex, entries, k);
    if k == |entries| {
      if k > 0 { assert Present(log, prevIndex, entries, k - 1); }
    } else {
      forall i | 0 <= i < |entries| ensures Present(r, prevIndex, entries, i) {
        if i < k {
          assert Present(log, prevIndex, entries, i);
        }
      }
    }
  }

  /** Delivering the same request twice is the same as delivering it once. */
  lemma AppendIdempotent(log: seq<Entry>, prevIndex: int, entries: seq<Entry>)
    requires 0 <= prevIndex < |log|
    ensures var once := Append(log, prevIndex, entries);
            Append(once, prevIndex, entries) == once
  {
    var once := Append(log, prevIndex, entries);
    AppendKeepsPrefix(log, prevIndex, entries);
    AppendIs(once, prevIndex, entries, |entries|);
  }

  /** The log is unchanged exactly when every entry of the request is present by term. */
  lemma AppendUnchangedIff(log: seq<Entry>, prevIndex: int, entries: seq<Entry>)
    requires 0 <= prevIndex < |log|
    ensures Append(log, prevIndex, entries) == log <==>
            FirstMissing(log, prevIndex, entries, |entries|)
  {
    AppendKeepsPrefix(log, prevIndex, entries);
    if FirstMissing(log, prevIndex, entries, |entries|) {
      AppendIs(log, prevIndex, entries, |entries|);
    }
  }

  /** A well-formed request that passes the consistency test keeps the log well formed. */
  lemma AppendWellFormed(log: seq<Entry>, prevIndex: int, prevTerm: int, entries: seq<Entry>, term: int)
    requires WellFormed(log, term) && WellFormedSlice(prevIndex, prevTerm, entries, term)
    requires InSync(log, prevTerm, prevIndex)
    ensures WellFormed(Append(log, prevIndex, entries), term)
  {
    var k := FirstMissingExists(log, prevIndex, entries);
    AppendIs(log, prevIndex, entries, k);
    if k < |entries| {
      var at := prevIndex + 1 + k;
      if k > 0 { assert Present(log, prevIndex, entries, k - 1); }
      assert log[at - 1].term <= entries[k].term;
    }
  }

  /** Two logs that agree on the term of an entry agree up to it. */
  ghost predicate Matching(a: seq<Entry>, b: seq<Entry>) {
    forall k :: 0 <= k < |a| && k < |b| && a[k].term == b[k].term ==> a[..k + 1] == b[..k + 1]
  }

  /** The request is a piece of `source`, taken right after position `prevIndex`. */
  ghost predicate SliceOf(source: seq<Entry>, prevIndex: int, prevTerm: int, entries: seq<Entry>) {
    && 0 <= prevIndex
    && prevIndex + |entries| < |source|
    && source[prevIndex].term == prevTerm
    && source[prevIndex + 1..prevIndex + 1 + |entries|] == entries
  }

  /** Appending a piece of `source` to a log that matches `source` either changes
      nothing or turns the log into a prefix of `source`. */
  lemma AppendSlice(log: seq<Entry>, source: seq<Entry>, prevIndex: int, prevTerm: int, entries: seq<Entry>)
    requires Matching(log, source) && SliceOf(source, prevIndex, prevTerm, entries)
    requires InSync(log, prevTerm, prevIndex)
    ensures var r := Append(log, prevIndex, entries);
            r == log || r == source[..prevIndex + 1 + |entries|]
  {
    var k := FirstMissingExists(log, prevIndex, entries);
    AppendIs(log, prevIndex, entries, k);
    if k < |entries| {
      var at := prevIndex + 1 + k;
      if k > 0 { assert Present(log, prevIndex, entries, k - 1); }
      assert log[at - 1].term == source[at - 1].term;
      assert log[..at] == source[..at];
      assert entries[k..] == source[at..prevIndex + 1 + |entries|];
    }
  }
}
