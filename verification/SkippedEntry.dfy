/** A run with a single winner in which the commit index of a follower jumps by two, so that
    its storage misses an entry the node has applied. */
module SkippedEntry {
  import opened Types
  import opened Logs
  import opened NodeSteps
  import opened Clusters
  import opened SingleWinner
  import opened Restart
  import opened Scenes

  const A := Entry(1, 1, 10, ADD, "a")
  const B := Entry(2, 1, 11, ADD, "b")

  const SEND_A := AppendRequest(1, 0, 0, 0, [A], 0)
  const SEND_B := AppendRequest(1, 0, 1, 1, [B], 1)
  const SEND_B_LATE := AppendRequest(1, 0, 1, 1, [B], 2)
  const BEAT := AppendRequest(1, 0, 2, 1, [], 2)

  function Has(follower: int, index: int): Message {
    AppendResponse(1, follower, true, index)
  }

  // ---- node 0 puts a, nodes 1 and 2 take it, node 0 puts b ----

  const WITH_A := LEADER.(log := [SENTINEL, A], pending := map[1 := 1, 2 := 1])
  const WITH_B := LEADER.(log := [SENTINEL, A, B], pending := map[1 := 2, 2 := 2])
  const ONE_A := VOTER.(role := Follower, leader := 0, log := [SENTINEL, A])
  const TWO_A := TWO.(role := Follower, term := 1, leader := 0, log := [SENTINEL, A])

  lemma PutFacts()
    ensures Act(LEADER, ClientPut(10, "a")).node == WITH_A
    ensures Packet(0, 1, SEND_A) in Act(LEADER, ClientPut(10, "a")).sent
    ensures Packet(0, 2, SEND_A) in Act(LEADER, ClientPut(10, "a")).sent
  {
    hide Act;
    PutEffect(LEADER, 10, "a", {1, 2}, map[1 := 1, 2 := 1]);
  }

  lemma PutAgainFacts()
    ensures Act(WITH_A, ClientPut(11, "b")).node == WITH_B
  {
    hide Act;
    PutEffect(WITH_A, 11, "b", {1, 2}, map[1 := 2, 2 := 2]);
  }

  lemma TakeFacts()
    ensures Act(VOTER, Receive(0, SEND_A)) == Reply(ONE_A, 0, Has(1, 1))
    ensures Act(TWO, Receive(0, SEND_A)) == Reply(TWO_A, 0, Has(2, 1))
  {
    AppendIs([SENTINEL], 0, [A], 0);
  }

  lemma Taken() returns (r: Run)
    ensures Running(r) && |r.steps| == 8
    ensures Now(r).nodes == [WITH_B, ONE_A, TWO_A] && Now(r).hist.wins == {(0, 1)}
    ensures Wire(r, 0, 1) == [] && Wire(r, 0, 2) == [] && Wire(r, 1, 0) == [Has(1, 1)] && Wire(r, 2, 0) == [Has(2, 1)]
  {
    hide Act, Running, Played, Calm, Now, Wire;
    PutFacts();
    PutAgainFacts();
    TakeFacts();
    r := Elect();
    r := Play(r, 0, ClientPut(10, "a"), WITH_A, map[1 := SEND_A, 2 := SEND_A]);
    r := Play(r, 1, Receive(0, SEND_A), ONE_A, map[0 := Has(1, 1)]);
    r := Play(r, 2, Receive(0, SEND_A), TWO_A, map[0 := Has(2, 1)]);
    r := Play(r, 0, ClientPut(11, "b"), WITH_B, map[]);
  }

  // ---- node 2 answers twice: both entries are committed ----

  const COMMITTED_A := WITH_B.(matched := map[1 := 0, 2 := 1], nextIndex := map[1 := 1, 2 := 2],
                               commit := 1, applied := [A], stored := [A], advances := [1])
  const COMMITTED_B := WITH_B.(matched := map[1 := 0, 2 := 2], nextIndex := map[1 := 1, 2 := 3], pending := map[1 := 2, 2 := 1],
                               commit := 2, applied := [A, B], stored := [A, B], advances := [1, 2])
  const TWO_B := TWO_A.(log := [SENTINEL, A, B], commit := 1, applied := [A], stored := [A], advances := [1])

  lemma CommitFacts()
    ensures Act(WITH_B, Receive(2, Has(2, 1))).node == COMMITTED_A
    ensures Packet(0, 2, SEND_B) in Act(WITH_B, Receive(2, Has(2, 1))).sent
    ensures Act(COMMITTED_A, Receive(2, Has(2, 2))).node == COMMITTED_B
  {
    hide Act;
    CommitEffect(WITH_B, 2, Has(2, 1), COMMITTED_A);
    CommitEffect(COMMITTED_A, 2, Has(2, 2), COMMITTED_B);
  }

  lemma TakeAgainFacts()
    ensures Act(TWO_A, Receive(0, SEND_B)) == Reply(TWO_B, 0, Has(2, 2))
  {
    AppendIs([SENTINEL, A], 1, [B], 0);
  }

  lemma Committed() returns (r: Run)
    ensures Running(r) && |r.steps| == 11
    ensures Now(r).nodes == [COMMITTED_B, ONE_A, TWO_B] && Now(r).hist.wins == {(0, 1)}
    ensures Wire(r, 0, 1) == [] && Wire(r, 1, 0) == [Has(1, 1)]
  {
    hide Act, Running, Played, Calm, Now, Wire;
    CommitFacts();
    TakeAgainFacts();
    r := Taken();
    r := Play(r, 0, Receive(2, Has(2, 1)), COMMITTED_A, map[2 := SEND_B]);
    r := Play(r, 2, Receive(0, SEND_B), TWO_B, map[0 := Has(2, 2)]);
    r := Play(r, 0, Receive(2, Has(2, 2)), COMMITTED_B, map[]);
  }

  // ---- node 1 gets b too late to commit with it, and the next heartbeat commits both ----

  const OFFERING := COMMITTED_B.(matched := map[1 := 1, 2 := 2], nextIndex := map[1 := 2, 2 := 3])
  const BEATING := OFFERING.(pending := map[1 := 3, 2 := 2])
  const ONE_B := ONE_A.(log := [SENTINEL, A, B])
  const JUMPED := ONE_B.(commit := 2, applied := [A, B], stored := [B], advances := [2])

  lemma OfferFacts()
    ensures Act(COMMITTED_B, Receive(1, Has(1, 1))).node == OFFERING
    ensures Packet(0, 1, SEND_B_LATE) in Act(COMMITTED_B, Receive(1, Has(1, 1))).sent
  {
    AnswerEffect(COMMITTED_B, 1, Has(1, 1), OFFERING.matched, OFFERING.nextIndex);
  }

  lemma BeatFacts()
    ensures Act(OFFERING, HeartbeatTick).node == BEATING
    ensures Packet(0, 1, BEAT) in Act(OFFERING, HeartbeatTick).sent
  {
    assert Heartbeat(OFFERING) == BEAT && Others(3, 0) == {1, 2};
    BeatEffect(OFFERING, map[1 := 3, 2 := 2]);
  }

  lemma LateFacts()
    ensures Act(ONE_A, Receive(0, SEND_B_LATE)).node == ONE_B
  {
    AppendIs([SENTINEL, A], 1, [B], 0);
  }

  lemma JumpFacts()
    ensures Act(ONE_B, Receive(0, BEAT)).node == JUMPED
  {
    var log := ONE_B.log;
    assert log[1..3] == [A, B] && log[2..3] == [B];
  }

  lemma Jumped() returns (r: Run)
    ensures Running(r) && |r.steps| == 15
    ensures Now(r).nodes == [BEATING, JUMPED, TWO_B] && Now(r).hist.wins == {(0, 1)}
  {
    hide Act, Running, Played, Calm, Now, Wire;
    OfferFacts();
    BeatFacts();
    LateFacts();
    JumpFacts();
    r := Committed();
    r := Play(r, 0, Receive(1, Has(1, 1)), OFFERING, map[1 := SEND_B_LATE]);
    r := Play(r, 1, Receive(0, SEND_B_LATE), ONE_B, map[]);
    r := Play(r, 0, HeartbeatTick, BEATING, map[1 := BEAT]);
    r := Play(r, 1, Receive(0, BEAT), JUMPED, map[]);
  }

  /** Node 1 of a run of 15 steps with a single winner has applied a and b and stored b only. */
  lemma StorageMissesEntry() returns (r: Run)
    ensures Played(r) && SoleRun(r.states, r.steps, 0) && |r.steps| == 15
    ensures var c := Now(r);
            && |c.nodes| == 3 && !ByOne(c.nodes[1].advances)
            && c.nodes[1].applied == [A, B] && c.nodes[1].stored == [B]
  {
    hide Orderly, Init, Next, Enabled;
    r := Jumped();
    assert JUMPED.advances[0] != 0 + 1;
  }
}
