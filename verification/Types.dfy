/** Log entries, cluster messages and the packets that carry them. */
module Types {

  const ADD := 0
  const COMMIT := 1
  const MAX_PENDING_APPEND := 2
  const NOBODY := -1

  datatype Entry = Entry(index: int, term: int, id: int, operation: int, message: string)

  /** The entry every log starts with. */
  const SENTINEL := Entry(0, 0, 0, ADD, "")

  datatype Message =
    | AppendRequest(term: int, leaderId: int, prevIndex: int, prevTerm: int,
                    entries: seq<Entry>, leaderCommit: int)
    | AppendResponse(term: int, followerId: int, success: bool, lastSynced: int)
    | VoteRequest(term: int, candidateId: int, lastLogIndex: int, lastLogTerm: int)
    | VoteResponse(term: int, granted: int)

  /** A message in flight. `src` is the connection it travels on; no handler reads it. */
  datatype Packet = Packet(src: int, dst: int, msg: Message)

  /** Reading a counter map: a missing key reads as 0. */
  function Get(m: map<int, int>, k: int): int {
    if k in m then m[k] else 0
  }

  function Max(a: int, b: int): int {
    if a < b then b else a
  }

  function Last(log: seq<Entry>): Entry {
    if |log| == 0 then SENTINEL else log[|log| - 1]
  }
}
