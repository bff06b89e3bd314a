/** A run in which Log Matching fails because a leader takes over a higher term from a vote request,
    goes on leading, and two leaders write different entries under the same index and term. */
module TwoLeaders {
  import opened Types
  import opened Logs
  import opened NodeSteps
  import opened Scenes

  const RAISED := LEADER.(term := 2, votes := 0)

  const LEFT := Entry(1, 2, 10, ADD, "left")
  const RIGHT := Entry(1, 2, 11, ADD, "right")

  /** The leader takes the higher term and stays leader. */
  lemma RaiseFacts()
    ensures Act(LEADER, Receive(1, Ask(1, 2))).node == RAISED
  {
  }

  lemma PutFacts()
    ensures Act(RAISED, ClientPut(10, "left")).node.role.Leader? && Act(SECOND, ClientPut(11, "right")).node.role.Leader?
    ensures Act(RAISED, ClientPut(10, "left")).node.term == 2 == Act(SECOND, ClientPut(11, "right")).node.term
    ensures Act(RAISED, ClientPut(10, "left")).node.log == [SENTINEL, LEFT]
    ensures Act(SECOND, ClientPut(11, "right")).node.log == [SENTINEL, RIGHT]
  {
    PutEffect(RAISED, 10, "left", {1, 2}, map[1 := 1, 2 := 1]);
    PutEffect(SECOND, 11, "right", {0, 2}, map[0 := 1, 2 := 1]);
  }

  lemma Raised() returns (r: Run)
    ensures Running(r) && |r.steps| == 7
    ensures Now(r).nodes == [RAISED, ASKING_AGAIN, TWO] && Wire(r, 1, 2) == [Ask(1, 2)] && Wire(r, 2, 1) == []
  {
    hide Act, Running, Played, Calm, Now, Wire;
    StandFacts();
    RaiseFacts();
    r := Elect();
    r := Play(r, 1, VoteTick(false), STANDING, map[]);
    r := Play(r, 1, VoteCallback, ASKING_AGAIN, map[0 := Ask(1, 2), 2 := Ask(1, 2)]);
    r := Play(r, 0, Receive(1, Ask(1, 2)), RAISED, map[]);
  }

  lemma BothLead() returns (r: Run)
    ensures Running(r) && |r.steps| == 9 && Now(r).nodes == [RAISED, SECOND, GRANTED]
  {
    hide Act, Running, Played, Calm, Now, Wire;
    SecondFacts();
    r := Raised();
    r := Play(r, 2, Receive(1, Ask(1, 2)), GRANTED, map[1 := VoteResponse(2, 1)]);
    r := Play(r, 1, Receive(2, VoteResponse(2, 1)), SECOND, map[]);
  }

  /** Log Matching is false of some run of eleven steps, and with it "at most one leader per term". */
  lemma LogMatchingFails() returns (r: Run)
    ensures Played(r) && |r.steps| == 11
    ensures var c := Now(r);
            && |c.nodes| == 3 && c.nodes[0].role.Leader? && c.nodes[1].role.Leader?
            && c.nodes[0].term == c.nodes[1].term == 2
            && !Matching(c.nodes[0].log, c.nodes[1].log)
  {
    hide Act, Played, Calm, Wire;
    PutFacts();
    var left, right := Act(RAISED, ClientPut(10, "left")).node, Act(SECOND, ClientPut(11, "right")).node;
    r := BothLead();
    r := Play(r, 0, ClientPut(10, "left"), left, map[]);
    r := Play(r, 1, ClientPut(11, "right"), right, map[]);
    assert left.log[1].term == right.log[1].term && left.log[..2][1] != right.log[..2][1];
  }
}
