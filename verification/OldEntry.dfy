/** A run in which no leader takes over a term and Log Matching fails all the same: a refusal reaches a leader that has
    just been deposed, makes it send its old entry under the new term, and the new leader takes it. */
module OldEntry {
  import opened Types
  import opened Logs
  import opened NodeSteps
  import opened Scenes

  const X1 := Entry(1, 2, 20, ADD, "x1")
  const X2 := Entry(2, 2, 21, ADD, "x2")
  const Y := Entry(1, 1, 10, ADD, "y")
  const Z := Entry(2, 2, 22, ADD, "z")

  // ---- node 0 leads term 1 and puts y, node 1 wins term 2 ----

  const SEND_Y := AppendRequest(1, 0, 0, 0, [Y], 0)
  const WITH_Y := LEADER.(log := [SENTINEL, Y], pending := map[1 := 1, 2 := 1])

  lemma YFacts()
    ensures Act(LEADER, ClientPut(10, "y")).node == WITH_Y
    ensures Packet(0, 1, SEND_Y) in Act(LEADER, ClientPut(10, "y")).sent
  {
    hide Act;
    PutEffect(LEADER, 10, "y", {1, 2}, map[1 := 1, 2 := 1]);
  }

  lemma Standing() returns (r: Run)
    ensures Running(r) && Calm(r) && |r.steps| == 7 && Now(r).nodes == [WITH_Y, ASKING_AGAIN, TWO]
    ensures Wire(r, 0, 1) == [SEND_Y] && Wire(r, 1, 0) == [] && Wire(r, 1, 2) == [Ask(1, 2)] && Wire(r, 2, 1) == []
  {
    hide Act, Running, Played, Calm, Now, Wire;
    YFacts();
    StandFacts();
    r := Elect();
    r := Play(r, 0, ClientPut(10, "y"), WITH_Y, map[1 := SEND_Y]);
    r := Play(r, 1, VoteTick(false), STANDING, map[]);
    r := Play(r, 1, VoteCallback, ASKING_AGAIN, map[2 := Ask(1, 2)]);
  }

  const BEAT := AppendRequest(2, 1, 0, 0, [], 0)
  const BEATING := SECOND.(pending := map[0 := 1, 2 := 1])

  lemma BeatFacts()
    ensures Act(SECOND, HeartbeatTick).node == BEATING && Packet(1, 0, BEAT) in Act(SECOND, HeartbeatTick).sent
  {
    assert Heartbeat(SECOND) == BEAT && Others(3, 1) == {0, 2};
    BeatEffect(SECOND, map[0 := 1, 2 := 1]);
  }

  lemma Second() returns (r: Run)
    ensures Running(r) && Calm(r) && |r.steps| == 10 && Now(r).nodes == [WITH_Y, BEATING, GRANTED]
    ensures Wire(r, 0, 1) == [SEND_Y] && Wire(r, 1, 0) == [BEAT] && Wire(r, 1, 2) == [] && Wire(r, 2, 1) == []
  {
    hide Act, Running, Played, Calm, Now, Wire;
    SecondFacts();
    BeatFacts();
    r := Standing();
    r := Play(r, 2, Receive(1, Ask(1, 2)), GRANTED, map[1 := VoteResponse(2, 1)]);
    r := Play(r, 1, Receive(2, VoteResponse(2, 1)), SECOND, map[]);
    r := Play(r, 1, HeartbeatTick, BEATING, map[0 := BEAT]);
  }

  // ---- node 1 refuses the old request; the heartbeat deposes node 0, and the refusal makes it send y again ----

  const REFUSAL := AppendResponse(2, 1, false, -1)
  const UNVERIFIED := AppendResponse(2, 0, true, 1)
  const OLD_ENTRY := AppendRequest(2, 0, 0, 0, [Y], 0)
  const DEPOSED := WITH_Y.(role := Follower, term := 2, leader := 1)

  lemma RefuseFacts()
    ensures Act(BEATING, Receive(0, SEND_Y)) == Reply(BEATING, 0, REFUSAL)
    ensures Act(WITH_Y, Receive(1, BEAT)) == Reply(DEPOSED, 1, UNVERIFIED)
  {
  }

  lemma AgainFacts()
    ensures Act(DEPOSED, Receive(1, REFUSAL)).node == DEPOSED
    ensures Packet(0, 1, OLD_ENTRY) in Act(DEPOSED, Receive(1, REFUSAL)).sent
  {
    var d := Digest(DEPOSED, REFUSAL);
    assert d == DEPOSED.(pending := map[1 := 0, 2 := 1]);
    hide Digest;
  }

  lemma Deposed() returns (r: Run)
    ensures Running(r) && Calm(r) && |r.steps| == 13 && Now(r).nodes == [DEPOSED, BEATING, GRANTED]
    ensures Wire(r, 0, 1) == [UNVERIFIED, OLD_ENTRY] && Wire(r, 1, 0) == [] && Wire(r, 1, 2) == [] && Wire(r, 2, 1) == []
  {
    hide Act, Running, Played, Calm, Now, Wire;
    RefuseFacts();
    AgainFacts();
    r := Second();
    r := Play(r, 1, Receive(0, SEND_Y), BEATING, map[0 := REFUSAL]);
    assert Wire(r, 1, 0) == [BEAT, REFUSAL];
    r := Play(r, 0, Receive(1, BEAT), DEPOSED, map[1 := UNVERIFIED]);
    assert Wire(r, 1, 0) == [REFUSAL];
    r := Play(r, 0, Receive(1, REFUSAL), DEPOSED, map[1 := OLD_ENTRY]);
  }

  // ---- node 1 puts x1 and x2 and commits x1 on the word of node 0, which has y there; node 2 takes both ----

  const SEND_X1 := AppendRequest(2, 1, 0, 0, [X1], 0)
  const SEND_X2 := AppendRequest(2, 1, 1, 2, [X2], 1)
  const HAS_X1 := AppendResponse(2, 2, true, 1)
  const WITH_X1 := SECOND.(log := [SENTINEL, X1], pending := map[0 := 2, 2 := 2])
  const WITH_X2 := WITH_X1.(log := [SENTINEL, X1, X2])
  const COMMITTED := WITH_X2.(matched := map[0 := 1, 2 := 0], nextIndex := map[0 := 2, 2 := 1],
                              commit := 1, applied := [X1], stored := [X1], advances := [1])
  const OFFERING := COMMITTED.(matched := map[0 := 1, 2 := 1], nextIndex := map[0 := 2, 2 := 2])
  const TAKEN := GRANTED.(role := Follower, leader := 1, log := [SENTINEL, X1])
  const TAKEN_BOTH := TAKEN.(log := [SENTINEL, X1, X2], commit := 1, applied := [X1], stored := [X1], advances := [1])

  lemma PutFacts()
    ensures Act(BEATING, ClientPut(20, "x1")).node == WITH_X1
    ensures Packet(1, 2, SEND_X1) in Act(BEATING, ClientPut(20, "x1")).sent
    ensures Act(WITH_X1, ClientPut(21, "x2")).node == WITH_X2
  {
    hide Act;
    PutEffect(BEATING, 20, "x1", {0, 2}, map[0 := 2, 2 := 2]);
    PutEffect(WITH_X1, 21, "x2", {}, map[0 := 2, 2 := 2]);
  }

  lemma CommitFacts()
    ensures Act(WITH_X2, Receive(0, UNVERIFIED)).node == COMMITTED
  {
    CommitEffect(WITH_X2, 0, UNVERIFIED, COMMITTED);
  }

  lemma Committed() returns (r: Run)
    ensures Running(r) && Calm(r) && |r.steps| == 16 && Now(r).nodes == [DEPOSED, COMMITTED, GRANTED]
    ensures Wire(r, 0, 1) == [OLD_ENTRY] && Wire(r, 1, 0) == [] && Wire(r, 1, 2) == [SEND_X1] && Wire(r, 2, 1) == []
  {
    hide Act, Running, Played, Calm, Now, Wire;
    PutFacts();
    CommitFacts();
    r := Deposed();
    r := Play(r, 1, ClientPut(20, "x1"), WITH_X1, map[2 := SEND_X1]);
    r := Play(r, 1, ClientPut(21, "x2"), WITH_X2, map[]);
    r := Play(r, 1, Receive(0, UNVERIFIED), COMMITTED, map[]);
  }

  lemma TakeFacts()
    ensures Act(GRANTED, Receive(1, SEND_X1)) == Reply(TAKEN, 1, HAS_X1)
  {
    AppendIs([SENTINEL], 0, [X1], 0);
  }

  lemma TakeBothFacts()
    ensures Act(TAKEN, Receive(1, SEND_X2)).node == TAKEN_BOTH
  {
    AppendIs([SENTINEL, X1], 1, [X2], 0);
  }

  lemma OfferFacts()
    ensures Act(COMMITTED, Receive(2, HAS_X1)).node == OFFERING
    ensures Packet(1, 2, SEND_X2) in Act(COMMITTED, Receive(2, HAS_X1)).sent
  {
    AnswerEffect(COMMITTED, 2, HAS_X1, OFFERING.matched, OFFERING.nextIndex);
  }

  lemma Taken() returns (r: Run)
    ensures Running(r) && Calm(r) && |r.steps| == 19 && Now(r).nodes == [DEPOSED, OFFERING, TAKEN_BOTH]
    ensures Wire(r, 0, 1) == [OLD_ENTRY] && Wire(r, 1, 0) == []
  {
    hide Act, Running, Played, Calm, Now, Wire;
    TakeFacts();
    TakeBothFacts();
    OfferFacts();
    r := Committed();
    r := Play(r, 2, Receive(1, SEND_X1), TAKEN, map[1 := HAS_X1]);
    r := Play(r, 1, Receive(2, HAS_X1), OFFERING, map[2 := SEND_X2]);
    r := Play(r, 2, Receive(1, SEND_X2), TAKEN_BOTH, map[]);
  }

  // ---- the old entry reaches leader 1 ----

  const TRUNCATED := OFFERING.(log := [SENTINEL, Y], leader := 0)
  const WITH_Z := TRUNCATED.(log := [SENTINEL, Y, Z])
  const LAST_BEAT := AppendRequest(2, 1, 1, 1, [], 1)
  const LAST_BEATING := TRUNCATED.(pending := map[0 := 3, 2 := 3])
  const APPLIED_Y := DEPOSED.(commit := 1, applied := [Y], stored := [Y], advances := [1])

  /** The leader loses the committed entry x1. */
  lemma TruncateFacts()
    ensures Act(OFFERING, Receive(0, OLD_ENTRY)).node == TRUNCATED
  {
    AppendIs(OFFERING.log, 0, [Y], 0);
  }

  lemma ZFacts()
    ensures Act(TRUNCATED, ClientPut(22, "z")).node == WITH_Z
  {
    hide Act;
    PutEffect(TRUNCATED, 22, "z", {}, map[0 := 2, 2 := 2]);
  }

  lemma LastBeatFacts()
    ensures Act(TRUNCATED, HeartbeatTick).node == LAST_BEATING
    ensures Packet(1, 0, LAST_BEAT) in Act(TRUNCATED, HeartbeatTick).sent
  {
    assert Heartbeat(TRUNCATED) == LAST_BEAT && Others(3, 1) == {0, 2};
    BeatEffect(TRUNCATED, map[0 := 3, 2 := 3]);
  }

  lemma ApplyFacts()
    ensures Act(DEPOSED, Receive(1, LAST_BEAT)).node == APPLIED_Y
  {
    var log := DEPOSED.log;
    assert log[1..2] == [Y];
  }

  lemma Truncated() returns (r: Run)
    ensures Running(r) && Calm(r) && |r.steps| == 20 && Now(r).nodes == [DEPOSED, TRUNCATED, TAKEN_BOTH]
    ensures Wire(r, 1, 0) == []
  {
    hide Act, Running, Played, Calm, Now, Wire;
    TruncateFacts();
    r := Taken();
    r := Play(r, 1, Receive(0, OLD_ENTRY), TRUNCATED, map[]);
  }

  /** Log Matching is false of a run of 21 steps in which no leader ever takes over a term. A leader's log has
      lost the entry it applied. */
  lemma LogMatchingFails() returns (r: Run)
    ensures Played(r) && Calm(r) && |r.steps| == 21
    ensures var c := Now(r);
            && |c.nodes| == 3 && !Matching(c.nodes[1].log, c.nodes[2].log)
            && c.nodes[1].role.Leader? && c.nodes[1].commit == 1
            && |c.nodes[1].log| > 1 && |c.nodes[1].applied| == 1 && c.nodes[1].log[1] != c.nodes[1].applied[0]
  {
    hide Act, Played, Calm, Wire;
    ZFacts();
    r := Truncated();
    r := Play(r, 1, ClientPut(22, "z"), WITH_Z, map[]);
    var a, b := WITH_Z.log, TAKEN_BOTH.log;
    assert a[2].term == b[2].term && a[..3][1] != b[..3][1];
  }

  /** In a run of 22 steps nodes come to apply different entries at the same index: state machine safety is
      false across leader changes. */
  lemma StateMachineSafetyFails() returns (r: Run)
    ensures Played(r) && Calm(r) && |r.steps| == 22
    ensures var c := Now(r);
            && |c.nodes| == 3 && c.nodes[0].applied == [Y] && c.nodes[1].applied == c.nodes[2].applied == [X1]
            && c.nodes[0].commit == c.nodes[1].commit == c.nodes[2].commit == 1
  {
    hide Act, Played, Calm, Wire;
    LastBeatFacts();
    ApplyFacts();
    r := Truncated();
    r := Play(r, 1, HeartbeatTick, LAST_BEATING, map[0 := LAST_BEAT]);
    r := Play(r, 0, Receive(1, LAST_BEAT), APPLIED_Y, map[]);
  }
}
