# flowmq: a verified model

flowmq is a partitioned message queue. Each partition is replicated by a cluster of nodes that elect a leader
and copy its log after Raft (Ongaro and Ousterhout, "In Search of an Understandable Consensus Algorithm",
extended version, sections 5.2 and 5.3). A committed log entry adds a message to the queue or commits one;
the leader gives undelivered messages to consumers in turn; committed entries go to a log file from which
a restarted node rebuilds its queue.

The project models the node, the cluster, the queue, the consumer registry, the log file with its buffered
writer and the socket framing, and proves what holds of every run.

How it is put together:

- `NodeSteps` has every handler of a node as a function on a record. `ClusterNodes.ClusterNode` is the node
  object: its methods change fields in place, with the loops of the source, and are proved to do to the object
  what the functions do to the record.
- `Duties` says of every handler what it must do, in terms of the fields of the node and the packets sent: when exactly a
  vote is given, an election won, an entry sent, a request answered, an index committed.
- `Clusters` is the step system. A step is one handler run at one node, or the loss of one packet. The network is
  a multiset: packets are reordered and lost at will and delivered at most once. Nodes may stop for good. `IsRun`
  says that a sequence of states is such a run; main results are about all runs, all their states and all nodes.
- `Shape`, `Flow`, `Election`, `Progress`, `LogMatching`, `SingleWinner` and `CatchUp` prove what is true of runs;
  `TwoLeaders`, `OldEntry` and `SkippedEntry` play runs, step by step with the tools of `Scenes`, in which properties one
  might expect are false. These runs lose packets but keep the order of every connection, as a TCP session does:
  `Scenes.Played` says so.
- `Queues`, `Delivery`, `MessageQueues`, `ClientManagers`, `Stranded` and `ReplicatedQueue` are about messages and consumers.
- `LogFiles`, `Storage`, `Restart`, `Wire` and `Decimal` are about bytes, files and restarts.

Where the code is not what its comments or Raft say, the model follows the code:

- A leader that hears of a higher term in a vote request or a failed append response takes over the term and goes on
  leading. So "at most one leader per term" and Log Matching are false in general (`TwoLeaders.LogMatchingFails`).
  What is true without any condition is that a term is won at most once (`Election.ElectionSafety`). "Every leader
  leads a term it won" is true of a run if and only if no leader ever takes over a term (`LogMatching.LeadersWonRun`).
- A node that is no longer leader still sends entries, under the new term, when a late append response arrives, and
  a leader takes append requests of its own term. So Log Matching can fail although no leader takes over a term
  (`OldEntry.LogMatchingFails`), and nodes can apply different entries at the same index
  (`OldEntry.StateMachineSafetyFails`).
- The counter of pending append requests is never reset. It is the number of append messages in flight plus the number
  lost so far (`Flow.FlowExact`), so after two losses a follower gets no more entries from that node
  (`Flow.SilentAfterLosses`); only heartbeats still pass. `CatchUp` is about a link that loses nothing.
- Log Matching is proved for every steady run: no leader takes over a higher term, and no leader accepts a request of
  its own term that contradicts an entry it has. A run is steady if and only if every leader leads a term it won and
  no node loses a log entry while it leads (`LogMatching.SteadyIff`). Runs in which no leader meets a higher term and
  only leaders handle append responses are steady (`LogMatching.LogMatchingPrudent`).
- The matched index of a follower may go down. A comment in the source asks for a proof that this is safe;
  in runs with a single winner it is (`SingleWinner.MatchedIndexMayDecrease`).
- On a commit advance, storage is given a slice that starts at the new commit index, so only the last entry of the
  advance. A comment promises that the persisted state is recovered after a crash; it is if and only if every advance
  was by one and no failed flush dropped anything (`Restart.RestartEquivalence`; a run with a single winner and
  an advance by two is `SkippedEntry.StorageMissesEntry`).
- The writer thread ignores that the log file cannot be opened and clears its buffer. Nothing handed over is lost if and
  only if no such flush met a non-empty buffer (`Storage.NothingLostIff`).
- Delivering to a partition nobody ever opened answers client id 1, not the documented -1. A message recorded for that
  client is stranded unless there is a client 1 or its disconnect is due (`Stranded.PickKeepsIff`, `Stranded.UnopenedStrands`).
- A disconnect erases one registration per partition; a client that opened a partition twice stays registered without a
  session (`ClientManagers.EraseFirstIff`, `ClientManagers.ClientManager.Disconnected`, `Stranded.SecondOpenStrands`).

Timers, random ids, random delays and the arrival of packets and clients are choices of the step or parameters of the
method. The number of votes collected is not initialised by the source, so the model starts it anywhere.

## Model

| member | source | states |
|---|---|---|
| Election.ElectionSafety | src/flowmq/cluster_node.cpp:372-469 | In every run, if two steps each make a node win the same term, it is the same node and the same step, although candidates do not record voters, old votes survive term changes and delayed callbacks fire late. |
| Election.OneVotePerVoterAndTerm | src/flowmq/cluster_node.cpp:381-427 | In every run, two different steps of one voter never give votes of the same term, be it to itself in the delayed callback or to a candidate. |
| Election.OneRequestPerCandidateAndTerm | src/flowmq/cluster_node.cpp:142-170 | In every run, two vote callbacks of a node that broadcast a request do so in different terms. |
| Election.OneWinner | src/flowmq/cluster_node.cpp:458-466 | The counting argument: under the election invariant two winners of a term are the same node, because their counted votes come from disjoint sets of distinct voters. |
| Election.ElectionReachable | src/flowmq/cluster_node.cpp:124-179 | The election invariant (votes, requests, responses in flight and the counter of votes agree) holds in every state of every run. |
| Election.WinIsNew | src/flowmq/cluster_node.cpp:460-466 | A node wins only by a vote response, for the term it is already in, and never a term it won before. |
| Progress.MajorityElects | src/flowmq/cluster_node.cpp:372-469 | In every run and every cluster size, whatever else happens: if a node asks for votes, keeps its term and meets no leader, and others that make a majority with it are free to vote when its request reaches them and their answers reach it, then it leads the term. |
| Progress.AloneNeverLeads | src/flowmq/cluster_node.cpp:460-466 | In every run of a cluster of one, the node never leads: only an answer can make it leader. |
| Progress.StandsAlways | src/flowmq/cluster_node.cpp:148-170 | Until then it has at least its own vote and one for every voter it has heard from, and not yet a majority. |
| Duties.VoteGrantedIff | src/flowmq/cluster_node.cpp:381-427 | A vote is sent if and only if the node does not lead and the term is higher than its own, or is its own and it has voted for nobody or for this candidate; the vote and the term are then remembered. |
| Duties.VoteRefusedIff | src/flowmq/cluster_node.cpp:381-408 | A refusal is sent if and only if the term is over or the vote of the term went to somebody else, and changes nothing; a leader that does not refuse answers nothing. |
| Duties.ElectedIff | src/flowmq/cluster_node.cpp:432-469 | A node leads after a vote response if and only if it led before or, standing and not refused or out of date, its votes now make more than half of the nodes. |
| Duties.RoundStartsIff | src/flowmq/cluster_node.cpp:129-146 | A new round starts if and only if the node stands already or is a follower that has not heard from its leader in time. |
| Duties.AsksEverybody | src/flowmq/cluster_node.cpp:153-170 | The delayed callback sends every other node one request with the last entry, if and only if the node has not voted since. |
| Duties.BeatsEverybody | src/flowmq/cluster_node.cpp:94-117 | A leader sends every other node one empty request with its last entry and commit index and counts it for each; other nodes send none. |
| Duties.AnsweredIff | src/flowmq/cluster_node.cpp:220-301 | A request is answered once, with success if and only if its term is not over and the log has the entry before it; a success names the last index, a failure leaves the log alone. |
| Duties.FollowsIff | src/flowmq/cluster_node.cpp:223-253 | A request of a current term makes every node but a leader of that term a follower of its sender; one whose term is over only makes the node forget its leader. |
| Duties.FollowerCommitsIff | src/flowmq/cluster_node.cpp:276-283 | The commit index of a follower moves to the leader's if and only if the request fits and that index is ahead and inside the log before the new entries; what lies between is then applied and the entry at it stored. |
| Duties.LeaderCommitsIff | src/flowmq/cluster_node.cpp:333-349 | For every number of nodes, a success moves the commit index to what the follower has if and only if that is ahead and more than half of the nodes, with the leader itself, have it by the matched indices; otherwise nothing is committed, applied or stored. |
| Duties.LearnsOfFollower | src/flowmq/cluster_node.cpp:357-366 | What a response changes about the follower's matched and next index and the node's term, for a success, a failure of the same term and one of a higher term. |
| Duties.ResponseOffersIff | src/flowmq/cluster_node.cpp:368-371 | After a response the follower is sent its next entry, with the entry before it and the commit index as they are then, if and only if there is one and at most one other request is pending. |
| Duties.OffersIff | src/flowmq/cluster_node.cpp:552-581 | The next entry is sent and counted if and only if there is one and fewer than two requests are pending. |
| Duties.EntryAddedIff | src/flowmq/cluster_node.cpp:470-489 | A leader, and no other node, puts the entry at the end of its log under its term and the next index. |
| Duties.EverybodyOffered | src/flowmq/cluster_node.cpp:78-87 | And sends every follower its next entry once, if and only if there is one and fewer than two requests are pending. |
| LogMatching.LogMatchingHolds | src/flowmq/cluster_node.cpp:220-301 | In every state of every steady run, logs that have entries of the same index and term agree on everything up to there, through elections, truncations, lost and reordered messages, and requests that extend a leader. |
| LogMatching.SteadyIff | src/flowmq/cluster_node.cpp:220-301 | Over a whole run, every leader of every state leads a term it won and no node that stays leader over a step loses a log entry, if and only if no step raises a leader and no step gives a leader a contradicting request of its own term. |
| LogMatching.LogMatchingOfLeaders | src/flowmq/cluster_node.cpp:220-301 | Log Matching holds in every state of a run in which leaders lead terms they won and only append. |
| LogMatching.LeadersAppendIff | src/flowmq/cluster_node.cpp:286-287 | One step keeps the log of every node that stays leader as a prefix if and only if it is not a leader accepting a contradicting request. |
| LogMatching.LogMatchingPrudent | src/flowmq/cluster_node.cpp:303-371 | Runs in which no leader handles a vote request or append response of a higher term and only leaders handle append responses are steady, so Log Matching holds in them. |
| LogMatching.LeadersWonIff | src/flowmq/cluster_node.cpp:359-362 | One step keeps "every leader leads a term it won" if and only if it is not a leader taking over a higher term from a vote request or a failed append response. |
| LogMatching.LeadersWonRun | src/flowmq/cluster_node.cpp:409-415 | Over a whole run, every leader of every state leads a term it won if and only if no leader ever takes over a higher term. |
| LogMatching.OneLeaderPerTerm | src/flowmq/cluster_node.cpp:460-466 | While leaders lead terms they won, two leaders of one term are the same node. |
| LogMatching.LeaderAppendOnlyIff | src/flowmq/cluster_node.cpp:256-287 | A leader that takes an append request of its own term keeps its log as a prefix if and only if the request fails the consistency test or contradicts none of its entries. |
| TwoLeaders.LogMatchingFails | src/flowmq/cluster_node.cpp:409-415 | A run of eleven steps of three nodes, in order on every connection, ends with two leaders of term 2 whose logs have different entries of the same index and term. |
| OldEntry.LogMatchingFails | src/flowmq/cluster_node.cpp:363-368 | A run of 21 steps, in order on every connection, in which no leader ever takes over a term ends with two logs that agree on the term of an entry and differ below it, and with a leader that no longer has the entry it committed and applied. |
| OldEntry.StateMachineSafetyFails | src/flowmq/cluster_node.cpp:276-287 | A run of 22 steps, in order on every connection and with no leader taking over a term, ends with three nodes at the same commit index of which one has applied another entry than the other two. |
| SingleWinner.StateMachineSafety | src/flowmq/cluster_node.cpp:608-632 | In runs with a single winner, at any two moments: every log is a prefix of the winner's, a node has applied exactly entries 1..commit once and in order, and what two nodes applied is the same as far as it goes. |
| SingleWinner.CommitInBounds | src/flowmq/cluster_node.cpp:333-349 | In those runs a success response in flight goes to the winner and names an index inside its log, so the out-of-bound branch of commit is dead. |
| SingleWinner.MatchedIndexMayDecrease | src/flowmq/cluster_node.cpp:315-349 | In those runs the matched index never exceeds what the follower has, no commit index ever goes down, and every index up to a commit index reached anywhere is from then on in the logs of a strict majority with the same entry. |
| SingleWinner.ForwardAlways | src/flowmq/cluster_node.cpp:256-301 | In those runs no node ever loses a log entry, a committed index or an applied entry between two moments. |
| SingleWinner.SafeReachable | src/flowmq/cluster_node.cpp:276-287 | The safety invariant (prefixes, commit bounds, what storage was given, requests in flight are pieces of the winner's log, majority holds the commit index) holds in every state of those runs. |
| Flow.FlowControl | src/flowmq/cluster_node.cpp:572-576 | In every state of every run, the pending counter of a node for a follower covers the append requests and responses in flight between them, and at most two of these requests carry entries, although heartbeats bypass the gate. |
| Flow.FlowExact | src/flowmq/cluster_node.cpp:570-576 | In every state of every run, the pending counter of a node for a follower is exactly the number of append requests and responses in flight between them plus the number of those the network has lost. |
| Flow.SilentAfterLosses | src/flowmq/cluster_node.cpp:570-576 | Once two append messages between a node and a follower are lost, no later step of the node sends that follower a request with entries. |
| Flow.NeverClips | src/flowmq/cluster_node.cpp:310-311 | When an append response is in flight its receiver's counter is at least 1, so the cut at 0 never changes anything. |
| Shape.LogShape | src/flowmq/cluster_node.cpp:39-50 | In every state of every run: the sentinel is at position 0, entry i has index i, terms do not decrease along a log nor exceed the node's term, and every append request in flight is such a slice with a previous index of at least 0. |
| CatchUp.CatchUpTerminates | src/flowmq/cluster_node.cpp:552-581 | For any leader and any follower whose logs match, lockstep exchanges end with the leader's log a prefix of the follower's, within as many rounds as the follower lacks entries plus the distance of the next index from the common prefix. |
| CatchUp.RoundProgress | src/flowmq/cluster_node.cpp:357-368 | Every round before that keeps the lockstep and the leader's log and strictly decreases the distance. |
| CatchUp.ResponseSends | src/flowmq/cluster_node.cpp:303-371 | In lockstep the answer to a response is what a round takes as the next request: the next entry if there is one to send, otherwise nothing until the heartbeat. |
| Logs.AppendIs | src/flowmq/cluster_node.hpp:179-196 | For any number of entries the append loop gives the log up to the first request entry it lacks followed by the rest of the request, and the log itself when it lacks none. |
| Logs.AppendKeepsPrefix | src/flowmq/cluster_node.hpp:179-196 | The loop keeps the log up to the previous index, ends with every request entry present, and either changes nothing or ends the log with the request. |
| Logs.AppendIdempotent | src/flowmq/cluster_node.hpp:179-196 | Taking the same request twice is taking it once. |
| Logs.AppendUnchangedIff | src/flowmq/cluster_node.hpp:179-196 | The log is unchanged if and only if every entry of the request is there, judged by its term. |
| Logs.AppendWellFormed | src/flowmq/cluster_node.cpp:583-598 | A well-formed request that passes the consistency test keeps the log well formed: indices in place, terms not decreasing. |
| Logs.AppendSlice | src/flowmq/cluster_node.hpp:179-196 | Taking a piece of a log that matches one's own either changes nothing or gives a prefix of that log. |
| ClusterNodes.ClusterNode.constructor | src/flowmq/cluster_node.cpp:10-76 | A node started on storage whose files hold anything that loads, truncated files included, has the loaded entries behind the sentinel as its log and has applied exactly them, delivers nothing, and is valid if and only if the loaded commit index is not negative; on empty files it is the node every run starts from, with commit index 0. |
| ClusterNodes.ClusterNode.AppendLogEntries | src/flowmq/cluster_node.hpp:179-196 | The loop on the node's log computes the append function whose meaning `AppendIs` gives. |
| ClusterNodes.ClusterNode.TriggerEntryUpdate | src/flowmq/cluster_node.cpp:552-581 | In place, the node and the packets sent are those of the trigger step used in the cluster runs. |
| ClusterNodes.ClusterNode.CommitLogEntry | src/flowmq/cluster_node.cpp:618-632 | Applying an index in range extends what was applied by that entry, keeps the queue what a replay of all applied entries gives up to deliveries, and gives nothing to a consumer; an index out of range does nothing. |
| ClusterNodes.ClusterNode.CommitLogEntries | src/flowmq/cluster_node.cpp:607-616 | The loop applies exactly the entries of the range that exist, in order; a node that leads and has a consumer then hands out everything, and any other node gives nothing to anybody. |
| ClusterNodes.ClusterNode.DeliverUndelivered | src/flowmq/cluster_node.cpp:644-673 | A node that leads and has a consumer hands out everything undelivered, round from the slot whose turn it is, writes each message with its text to who gets it, and leaves what was delivered where it was; any other node changes nothing. |
| ClusterNodes.ClusterNode.AdvanceCommit | src/flowmq/cluster_node.cpp:276-283 | Moving the commit index applies everything up to it, in order, hands storage the entry at the new index only, and deals out the queue if the node delivers. |
| ClusterNodes.ClusterNode.ConsumerDisconnected | src/flowmq/cluster_node.cpp:634-640 | Nothing is left at the client unless it still has a slot; what it held is undelivered, or handed to a slot and written there if the node delivers; what others hold stays with them; the persisted state stays a replay of the log. |
| ClusterNodes.ClusterNode.OnClientOpenQueue | src/flowmq/cluster_node.cpp:490-519 | The answer is written to the slot whose turn it is and takes the turn; a leader then hands out everything undelivered, and any other node nothing. |
| ClusterNodes.ClusterNode.OnVoteTimer | src/flowmq/cluster_node.cpp:124-146 | In place, the vote tick of the cluster runs: an expired follower becomes a candidate, a candidate starts a new round. |
| ClusterNodes.ClusterNode.OnDelayedVote | src/flowmq/cluster_node.cpp:148-170 | In place, the delayed vote callback of the cluster runs, with the requests it broadcasts. |
| ClusterNodes.ClusterNode.SendHeartbeat | src/flowmq/cluster_node.cpp:90-121 | In place, the heartbeat of the cluster runs: one empty request to each other node, every counter up by one; nothing unless leading. |
| ClusterNodes.ClusterNode.TriggerFollowers | src/flowmq/cluster_node.cpp:78-87 | Triggering the followers one by one, in any order, is the simultaneous step of the cluster runs. |
| ClusterNodes.ClusterNode.OnClientPut | src/flowmq/cluster_node.cpp:470-489 | In place, the put step: a leader appends an ADD entry of its term at the end and offers it to every follower that may be sent to; others ignore it. |
| ClusterNodes.ClusterNode.OnClientCommit | src/flowmq/cluster_node.cpp:520-541 | The same for COMMIT entries. |
| ClusterNodes.ClusterNode.HandleAppendRequest | src/flowmq/cluster_node.cpp:220-301 | In place, the append request step of the cluster runs with its response, keeping the queue a replay of the applied entries and storage in step; the queue is dealt out if the commit index moved and left alone if not. |
| ClusterNodes.ClusterNode.HandleAppendResponse | src/flowmq/cluster_node.cpp:303-371 | In place, the append response step of the cluster runs with the next entry it sends, as long as a majority index lies inside the log; the queue is dealt out if the commit index moved and left alone if not. |
| ClusterNodes.ClusterNode.CountSynced | src/flowmq/cluster_node.cpp:335-338 | The counting loop gives the number of followers whose matched index reaches the index, in whatever order they are visited. |
| ClusterNodes.ClusterNode.HandleVoteRequest | src/flowmq/cluster_node.cpp:372-431 | In place, the vote request step of the cluster runs with its response. |
| ClusterNodes.ClusterNode.HandleVoteResponse | src/flowmq/cluster_node.cpp:432-469 | In place, the vote response step of the cluster runs. |
| ClusterNodes.TriggeredNext | src/flowmq/cluster_node.cpp:83-86 | Triggering one more follower after some others sends what it would have sent first: the followers do not get in each other's way. |
| ClusterNodes.ApplyNext | src/flowmq/cluster_node.cpp:625-631 | A queue that is a replay of the applied entries up to deliveries stays one when the next entry is applied, and no message gets a consumer by it. |
| ClusterNodes.LeaveReleases | src/flowmq/message_queue.cpp:65-79 | A client that leaves is forgotten and holds nothing, what it held is undelivered, and others keep what they hold. |
| Queues.PersistedIsReplay | src/flowmq/message_queue.hpp:13-25 | For every interleaving of entries, deliveries of undelivered messages and disconnects: store and committed messages are those of a plain replay, and undelivered plus delivered is what the replay has undelivered; each message is in one of the three states and the two delivery maps are inverse. |
| Queues.CommittedForever | src/flowmq/message_queue.hpp:52-63 | A message once committed is never undelivered or delivered again, whatever is added again, delivered or disconnected later. |
| Queues.ReactKeeps | src/flowmq/message_queue.cpp:6-79 | Every log entry, delivery of an undelivered message and disconnect keeps each stored message in exactly one state and the delivery maps inverse, and takes no message out of committed. |
| Queues.DeliverKeepsIff | src/flowmq/message_queue.cpp:52-61 | Recording a delivery keeps the queue in order if and only if the message is undelivered or already at that consumer. |
| Queues.FetchKeepsIff | src/flowmq/message_queue.cpp:39-41 | Looking a message up keeps the queue in order if and only if the message is stored, because an unknown id is created. |
| Queues.ReplayStore | src/flowmq/message_queue.cpp:6-15 | After a replay a message is stored if and only if some entry adds it, and its text is that of the first such entry. |
| Queues.ReplayCommitted | src/flowmq/message_queue.cpp:17-37 | After a replay a message is committed if and only if some entry commits it after one that adds it. |
| MessageQueues.MessageQueue.InsertMessage | src/flowmq/message_queue.cpp:6-15 | In place, the insert of the queue events; the code tells whether the id was there. |
| MessageQueues.MessageQueue.CommitMessage | src/flowmq/message_queue.cpp:17-37 | In place, the commit of the queue events; the code tells whether the id was there. |
| MessageQueues.MessageQueue.GetMessage | src/flowmq/message_queue.cpp:39-41 | Gives the stored text, creating an empty message for an unknown id. |
| MessageQueues.MessageQueue.GetAllUndeliveredMessages | src/flowmq/message_queue.cpp:44-49 | Exactly the undelivered ids, each once, in ascending order. |
| MessageQueues.MessageQueue.DeliverMessageToClientId | src/flowmq/message_queue.cpp:52-61 | In place, the delivery of the queue events. |
| MessageQueues.MessageQueue.HandleClientDisconnected | src/flowmq/message_queue.cpp:65-79 | The loop puts exactly what the client held back to undelivered, in whatever order, and forgets the client; the code tells whether it was known. |
| Delivery.PassIsFair | src/flowmq/cluster_node.cpp:644-673 | A pass over k undelivered messages and n slots leaves none undelivered and gives the consumer of every slot k/n of them, rounded down or up, each once, from any starting counter; when no consumer has two slots, it gets no other message of the pass. |
| Delivery.PassEffect | src/flowmq/cluster_node.cpp:655-672 | A pass gives each message to the slot whose turn it is, leaves messages not reached undelivered, and touches no stored, committed or already delivered message. |
| Delivery.FairShare | src/flowmq/client_manager.cpp:38-45 | Counting modulo n from any start, every residue is met between k/n rounded down and k/n rounded up times in k turns. |
| ClientManagers.TriggerMessageDelivery | src/flowmq/cluster_node.cpp:644-673 | The method performs exactly such a pass over a snapshot of all undelivered ids, starting at the partition's counter, writes each message with its text to the slot it goes to, and moves the counter by as many; nothing if the node does not lead or nobody listens. |
| ClientManagers.WaitsItsTurn | src/flowmq/cluster_node.cpp:655-672 | During a pass every message of the snapshot is stored and undelivered until its turn comes. |
| ClientManagers.ClientManager.DeliverOneMessageRoundRobin | src/flowmq/client_manager.cpp:27-46 | The consumer is the slot at the counter modulo the number of slots and has a live session, and the message is written to it; the counter moves by one; the two answers without a consumer change and write nothing. |
| ClientManagers.ClientManager.OpenQueue | src/flowmq/client_manager.cpp:112-121 | The client gets one more slot at the end of the partition. |
| ClientManagers.ClientManager.Disconnected | src/flowmq/client_manager.cpp:67-91 | One registration per partition and the session are removed; every slot left has a session if and only if the client had opened each partition at most once. |
| ClientManagers.EraseFirstIff | src/flowmq/client_manager.cpp:79-88 | Erasing the first occurrence takes one occurrence out, and the client is gone from the list if and only if it was there at most once. |
| Stranded.NoMessageStranded | src/flowmq/client_manager.cpp:67-91 | Over every interleaving of connects, opens and their answers, disconnects between any two moments of a pass, commits and posted tasks, whoever holds a message has a live session or a disconnect task waiting at the node, and the slot whose turn it is has a live session. |
| Stranded.UnopenedStrands | src/flowmq/client_manager.cpp:31 | A history of four events at a partition nobody has opened ends with a message held by client 1, who has neither a session nor a disconnect due. |
| Stranded.SecondOpenStrands | src/flowmq/client_manager.cpp:79-88 | A history of nine events with one client that opens twice and leaves ends with a message held by that client after its disconnect has been dealt with. |
| Stranded.OpenKeepsIff | src/flowmq/client_manager.cpp:112-121 | The invariant behind this, slots registered once and with a live session, survives an open if and only if the client is not registered at the partition yet and has a live session. |
| Stranded.PickKeepsIff | src/flowmq/client_manager.cpp:27-46 | Picking a consumer keeps it if and only if the partition is registered, or client 1 has a live session or a disconnect due. |
| Stranded.TaskKeeps | src/flowmq/cluster_node.cpp:635-640 | The disconnect task keeps it and leaves nothing at the client. |
| ReplicatedQueue.SameQueue | src/flowmq/message_queue.hpp:13-25 | In runs with a single winner, two nodes at the same commit index, at any two moments and whatever each delivered, store the same messages, have the same committed and the same left to deliver. |
| LogFiles.RoundTripIff | src/flowmq/log_entry_storage.cpp:25-78 | For arbitrary payload bytes, loading a saved file gives back all entries with code 0 if and only if every length fits an int. |
| LogFiles.AppendRoundTrip | src/flowmq/log_entry_storage.cpp:39-50 | Loading after an append gives the old entries followed by the new ones. |
| LogFiles.LoadCutOff | src/flowmq/log_entry_storage.cpp:59-72 | A file cut off inside its last entry loads all entries before it and one more, made of the bytes there are, then those of the entry before at the same places, then NULs; the code is 0. |
| LogFiles.LoadNoNumber | src/flowmq/log_entry_storage.cpp:59-77 | Bytes without a number end the loading after the entries before them, with code 0 if and only if they are used up by looking for one. |
| LogFiles.LoadNegative | src/flowmq/log_entry_storage.cpp:59-61 | A negative length ends it with an exception. |
| LogFiles.LogFile.SaveLogEntries | src/flowmq/log_entry_storage.cpp:25-37 | The file becomes the frames of the entries; code 1 and no change when it cannot be opened. |
| LogFiles.LogFile.AppendLogEntries | src/flowmq/log_entry_storage.cpp:39-50 | The frames of the entries are added at the end; code 1 and no change when it cannot be opened. |
| LogFiles.LogFile.LoadLogEntries | src/flowmq/log_entry_storage.cpp:52-78 | The loop computes the load function of the round trip on every file, truncated and malformed ones included. |
| Decimal.ReadDigits | src/flowmq/log_entry_storage.cpp:59 | Reading back a printed number followed by a space gives the number if it fits an int and fails otherwise. |
| Decimal.ReadInteger | src/flowmq/log_entry_storage.cpp:17-23 | The same for numbers of either sign. |
| Decimal.ReadsNothing | src/flowmq/log_entry_storage.cpp:17-23 | Reading bytes without a number fails and gives 0. |
| Decimal.SpacesSkipped | src/flowmq/log_entry_storage.cpp:59 | Leading spaces of any number are skipped, and no more. |
| Storage.CommitRead | src/flowmq/log_entry_storage.cpp:17-23 | A metadata file without a number gives commit index 0; one with a printed number gives it, or the nearest int if it is out of range. |
| Storage.NothingToLoad | src/flowmq/cluster_node.cpp:61-73 | Empty files give no entry, code 0 and commit index 0. |
| Storage.FileAndBuffer | src/flowmq/cluster_node_storage.cpp:42-67 | From any files and for every interleaving of stores, flushes and failed flushes, the log file is the old one followed by exactly what reached it, in order, the buffer is what waits, and the metadata is the last handed over. |
| Storage.NothingLostIff | src/flowmq/cluster_node_storage.cpp:58-62 | What reached the file followed by what waits is everything handed over if and only if no flush that could not open the log file met a non-empty buffer. |
| Storage.LoadAfterFlush | src/flowmq/cluster_node_storage.cpp:54-67 | After a flush, loading gives the entries of the old file followed by those that reached it; that is everything handed over if and only if nothing was dropped; a flush that opens the metadata file leaves the last commit index there. |
| Storage.ClusterNodeStorage.StoreLogEntriesAndMetadata | src/flowmq/cluster_node_storage.cpp:42-52 | In place, a store event with the slice. |
| Storage.ClusterNodeStorage.ConsumeAndStoreMessages | src/flowmq/cluster_node_storage.cpp:54-67 | In place, a flush event: the log file object is asked to append and its code ignored, the metadata file is written if it opens, and the buffer is cleared in any case. |
| Storage.ClusterNodeStorage.LoadLogEntryFromFile | src/flowmq/cluster_node_storage.cpp:31-35 | Gives the entries the load function of the round trip finds in the log file. |
| Restart.RestartEquivalence | src/flowmq/cluster_node.cpp:62-73 | In runs with a single winner, for every interleaving of stores, flushes, failed flushes and queue events: what loads is the committed log if and only if every advance was by one and nothing was dropped; then log, store and committed messages are rebuilt, every other message is undelivered, and the commit index comes back if the last flush could write it. |
| ClusterNodes.OwnDisk | src/flowmq/cluster_node.cpp:343-349 | The storage of a valid node whose last event is a flush has been given what the node stored and, once it advanced, its commit index last: the condition under which `RestartEquivalence` speaks of it. |
| Restart.StoredIsAppliedIff | src/flowmq/cluster_node.cpp:343-349 | In those runs what storage was given is what was applied if and only if the commit index took every value in turn. |
| Restart.AdvanceStoresIff | src/flowmq/cluster_node.cpp:276-283 | One advance keeps storage complete if and only if it is by one. |
| SkippedEntry.StorageMissesEntry | src/flowmq/cluster_node.cpp:276-283 | A run of fifteen steps with a single winner, in order on every connection, ends with a follower that went from commit index 0 to 2, applied both entries and stored the second only. |
| Wire.WireRoundTrip | src/flowmq/session.cpp:34-79 | Any sequence of bodies of length 0 to 1000, written with their headers, is read back as it was with nothing left over, whatever the buffer held before. |
| Wire.WirePartial | src/flowmq/session.cpp:34-79 | A message that has arrived in part is left, header included, and what came before it is read. |
| Wire.WireStops | src/flowmq/message.hpp:38 | A header with a number below 0 or above 1000 stops the reader after what came before it. |
| Wire.AtoiHeader | src/flowmq/message.hpp:38-47 | The header of a length is twenty bytes and is decoded to that length, whatever follows it. |
| Wire.Message.SetBodyLength | src/flowmq/message.hpp:40-47 | The header becomes the decimal length padded with NULs; the body stays. |
| Wire.ReadMessages | src/flowmq/session.cpp:34-79 | The header-then-body loop on the reused buffer computes the receive function of the round trip on every stream. |

## Left out

- LogMatching.LogMatchingHolds: being steady is exact for what leaders do (`SteadyIff`) and sufficient for Log Matching; a run that is not steady may still end with logs that match, for instance when a leader takes over a term and then appends nothing.
- Leader completeness and state machine safety across leader changes: false of the code (`OldEntry.LogMatchingFails` ends with a leader that has lost a committed entry, `OldEntry.StateMachineSafetyFails` with nodes that applied different entries); no condition on runs with several winners is given.
- ClientManagers.TriggerMessageDelivery: the registry does not change during the pass; `Stranded` is about passes during which it does.
- Restarts inside an election: term and vote are not persisted, so a restarted node may vote twice; cluster runs have nodes that stop and do not come back.
- ClusterNodes.ClusterNode.HandleAppendResponse: asks that an index a majority reports lies inside the log, because the source then copies a range past the end of its vector; `CommitInBounds` shows that this is so in runs with a single winner.
- ClusterNodes.ClusterNode.HandleAppendRequest: asks for a previous index of at least 0, because the source then indexes its vector with a negative number; `LogShape` shows that every request in flight has one.
- ClusterNodes.ClusterNode.constructor: does not model the exception for a negative length in the log file.
- 32-bit wrap-around of terms, indices, counters and the delivery count: integers are unbounded, except for the lengths and numbers read from files, which are checked against the range of an int.
- Wire.ReadMessages: stops at a header that decodes to less than 0 or more than 1000, where the source reads outside its buffer.
- Sessions, sockets, reconnects, `ClusterManager`, `ClusterMaster` dispatch, clients, configuration, logging, statistics: plumbing with no property of the kind proved here.
- Protobuf and `RaftMessage`: messages are datatypes; the bytes of an entry come from any encoding that can be decoded.
- The order of posted tasks and of packets on one connection: theorems hold for any order, which covers the real one; the runs that show a property false keep the order of every connection.
- Stranded.SecondOpenStrands: the source writes to the absent session when it picks the slot left behind, which is undefined; the history shows what the registry and the queue come to.
- CatchUp.CatchUpTerminates: about exchanges in which nothing is lost; `SilentAfterLosses` shows that after two losses entries no longer flow.
- The writer thread's start and shutdown, and the first value of its metadata buffer: stores and flushes are atomic, the first value is arbitrary.
- The address of the leader in the answer to a refused open request.
