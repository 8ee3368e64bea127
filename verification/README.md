# Total-order multicast, snapshots and group membership: a Dafny model

The repository holds two distributed services written in C++. `lab1` is a total-order multicast in the style of
ISIS with a Chandy-Lamport snapshot beside it; `lab2` is a membership service with a heartbeat failure detector and
failover of the leader. This project models the algorithms of both and proves what they promise, for every number
of processes and every run.

Each class of the source that updates its fields is a Dafny class whose methods are proved against functions on
values; the services as a whole are state machines built from the same functions, and the results about every
reachable state and every run are lemmas about those machines.

| file | what it holds |
|---|---|
| `FiniteSets.dfy` | the least element of a set, sizes of subsets |
| `Messages.dfy` | the messages of the multicast, 32-bit increment |
| `HoldBackQueue.dfy` | the hold-back queue: order, sorting, delivery |
| `ContinuousMsgSender.dfy` | the retransmission list |
| `SenderWakeup.dfy` | the sending thread and its condition variable |
| `MulticastService.dfy` | the four message handlers and the listening loop of one process |
| `MulticastProtocol.dfy` | n processes over channels that lose, repeat and reorder; the invariant |
| `MulticastFrames.dfy`, `MulticastSenders.dfy`, `MulticastReceivers.dfy`, `MulticastInvariant.dfy` | every step keeps the invariant |
| `MulticastHistory.dfy`, `MulticastTheorems.dfy`, `MulticastProgress.dfy` | agreement, delivery, bounds, completion |
| `MulticastExamples.dfy` | a message delivered twice once a late copy is let through |
| `Snapshot.dfy` | the snapshot service of one process |
| `SnapshotProtocol.dfy`, `SnapshotTheorems.dfy`, `SnapshotCut.dfy` | one global snapshot: accounting, termination, consistent cut |
| `SnapshotExamples.dfy` | reachable snapshots in which a channel is not right |
| `FailureDetector.dfy` | the countdown scan and the heartbeats |
| `NewViewMsg.dfy` | the NewView message from the leader's set over the wire to the follower's |
| `Membership.dfy` | the handlers and the leader's loops of one peer |
| `MembershipProtocol.dfy`, `MembershipInvariant.dfy` | leader, followers and links; the invariant |
| `MembershipRefinement.dfy` | the leader's loops are runs of that machine |
| `MembershipTheorems.dfy`, `MembershipFailover.dfy`, `MembershipProgress.dfy` | view agreement, failover, completion |
| `MembershipOutcome.dfy` | whole changes and recoveries of that machine against the leader's program |
| `MembershipAddition.dfy` | the recovery of an addition |
| `MembershipExamples.dfy` | reachable groups in which a failover surprises |

## What is assumed

- Multicast: the recipients are all hosts, the sender included (lab1/src/main.cpp:66-68), and ids identify hosts.
  Every handler is one step, because all run on the one listening thread. A channel from one host to another may
  lose, repeat and reorder messages at any time, with one exception: no copy of a data message falls behind the
  sequence message that numbers it. Nothing in UDP promises that, and it is needed: `DeliveredTwiceAfterSwap` is a
  reachable state in which one such swap ends in a double delivery, and `LateDataIsNeverHarmless` and
  `LateDataIsDeliveredAgain` say what any such copy does.
- Multicast results hold while processes times messages is below 2^32; `ArithmeticBound` shows that no counter wraps
  before that.
- Snapshot: one initiator and reliable markers. The accounting and termination results let the network do anything to
  messages and take markers in any order; the cut results say which order they need. A message is recorded in a
  callback, before the drop test and the handler (lab1/src/part1/multicast.cpp:256-275): these are separate steps, and
  the state may be recorded in between. Recording the state and sending each of the markers are separate steps, too;
  other threads may send messages in between, but no message is recorded and no marker handled, for want of the lock
  (lab1/src/part2/snapshot.cpp:97-106).
- Membership: links are reliable and first-in first-out and one `send` is one `receive`; a follower reads all that its
  crashed leader had sent. Events do not overlap (lab2/REPORT.md:17-19): a peer joins, or a peer crashes, when the
  group is idle; the leader may crash whenever it is idle, and anywhere in the removal of a peer. After that crash
  the failure detectors of all survivors hold exactly the survivors, so that all choose the same new leader; in the
  source each survivor asks its own detector (lab2/src/membership.cpp:290-292).

## Where the code differs from what is said about it

- lab2/REPORT.md:184 has a peer declared dead after two missed intervals. A count is reset to 2 and a peer is
  reported when a scan finds it at 0, so it takes three scans since the last heartbeat (`ReportedOnlyWhenSilent`).
- lab1/src/part1/multicast.cpp:464 erases the id of the sequence message just handled, not of the message just
  delivered. `PendingMirrorsQueueIff` says for which queues the set of pending ids still names the waiting messages
  afterwards: those in which the numbered message is not at the head, or nothing deliverable waits directly behind
  it. `WrongIdIsDropped` gives a queue in which it does not. The multicast is correct in spite of it.
- lab2/src/membership.cpp:307-309 announces a changed member set under the view id that the survivors already hold.
  A view id determines the members only within the reign of one leader (`ViewAgreement`). `ViewIdReused` says
  exactly when a failover uses an id of the crashed leader again: when it finds no removal to complete, and also when
  the crashed leader had installed a view and not yet announced it to the new leader. `IdUsedAgain` and
  `UnannouncedIdUsedAgain` are reachable groups for the two.
- A follower is never more than one view of its own leader behind, but a survivor may miss a view across a failover
  (`NewLeaderIsNewest`). `LagAfterFailover` gives the exact lag at every point of the recovery. When the new leader
  completes an inherited removal, such a survivor is two views behind (`CommitPointOfRecovery`); `LagOfTwo` is a
  reachable group in which one is.
- A new leader that finds an addition to complete has no client for the new peer. It raises its view id and then
  fails to announce the view (`RecoveryCompletes`, `MemberRecovers`). If the new peer has the smallest id it leads
  itself, knows no member and tells none (`NewPeerLeadsAlone`). `AdditionRecovery` says for which crash points in an
  addition the members get over it: when there are none besides the leader, or one of them has the smallest id and no
  other was asked. `RecoveredAdditionFails` and `JoinerLeadsAlone` are reachable groups for the two failures.
- lab1/REPORT.md:164 notes that markers and messages travel separately. `MarkerPlaceDecides` says when the state
  recorded for a channel is nevertheless right, and `MarkerCanOvertake` gives a run in which it is not.
- Even where markers keep their place, a message that its receiver has in hand while it records its state, passed to
  the snapshot service and not yet handled, is neither in that state nor in the recorded channel, and one that is sent
  after the sender has recorded its state and before it sends the marker is taken for one of the cut. `ConsistentCut`
  says that nothing else goes wrong, and `MessageInHandIsLost` and `LateMessageIsReceived` are runs for the two.

## Model

| member | source | states |
|---|---|---|
| `HoldBackQueues.LessIsStrictWeakOrder` | lab1/src/part1/multicast.cpp:408-419 | the comparison of pending messages is what `std::sort` demands: irreflexive, asymmetric, transitive, with transitive incomparability |
| `HoldBackQueues.SortPermutes` | lab1/src/part1/multicast.cpp:455 | sorting keeps every entry, with its multiplicity |
| `HoldBackQueues.SortIsDetermined` | lab1/src/part1/multicast.cpp:455 | of comparable entries exactly one rearrangement is strictly sorted, so any correct sort yields it |
| `HoldBackQueues.DeliverableCount` | lab1/src/part1/multicast.cpp:457-466 | what the delivery loop pops is the longest deliverable prefix |
| `HoldBackQueues.AddKeepsOrder` | lab1/src/part1/multicast.cpp:423-437 | a new entry above all others keeps delivered and waiting messages together strictly sorted, with an undeliverable head |
| `HoldBackQueues.MarkKeepsOrder` | lab1/src/part1/multicast.cpp:439-471 | a first sequence message keeps that order, only extends what was delivered, and replaces exactly its own entry by the finalized one |
| `HoldBackQueues.RepeatedMarkIsIdle` | lab1/src/part1/multicast.cpp:439-471 | a repeated sequence message changes nothing |
| `HoldBackQueues.PendingMirrorsQueueIff` | lab1/src/part1/multicast.cpp:455-466 | after a first sequence message the pending ids still name exactly the waiting messages iff its entry is not at the head or nothing deliverable is directly behind it |
| `HoldBackQueues.TieGoesToSmallerProposer` | lab1/src/part1/multicast.cpp:408-419 | of two messages with one final number the smaller proposer's is delivered first, and it waits behind one that has no final number yet |
| `HoldBackQueues.WrongIdIsDropped` | lab1/src/part1/multicast.cpp:464 | four calls after which nothing waits and an id of a delivered message is still pending; a repeated sequence message for it finds nothing |
| `HoldBackQueues.UndeliverableStays` | lab1/src/part1/multicast.cpp:443-466 | only a sequence message of its own moves an undeliverable entry out of the queue |
| `HoldBackQueues.HoldBackQueue.Add` | lab1/src/part1/multicast.cpp:423-437 | adds unless the id is pending; the whole new state |
| `HoldBackQueues.HoldBackQueue.Mark` | lab1/src/part1/multicast.cpp:439-471 | marking, sorting and delivering amount to one function of the old state; the answer says whether an entry was found |
| `HoldBackQueues.HoldBackQueue.Deliver` | lab1/src/part1/multicast.cpp:457-466 | the loop delivers the deliverable prefix in order and drops the one id iff it delivers anything |
| `ContinuousMsgSenders.QueueMsgEffect` | lab1/src/part1/multicast.cpp:68-80 | a queued message waits for all recipients, no other message is affected, no entry has an empty recipient set |
| `ContinuousMsgSenders.RemoveRecipientEffect` | lab1/src/part1/multicast.cpp:83-108 | an acknowledgement strikes exactly one recipient of one message and leaves no entry without recipients |
| `ContinuousMsgSenders.RemovedLoad` | lab1/src/part1/multicast.cpp:83-108 | the number of missing acknowledgements falls by one iff the call answers true, the list by one iff it was the last recipient |
| `ContinuousMsgSenders.RemovedOnce` | lab1/src/part1/multicast.cpp:83-108 | after answering true for a message and a recipient, it answers false whatever calls come in between |
| `ContinuousMsgSenders.ContinuousMsgSender.Queue` | lab1/src/part1/multicast.cpp:68-80 | appends the message with all recipients and raises the flag |
| `ContinuousMsgSenders.ContinuousMsgSender.Remove` | lab1/src/part1/multicast.cpp:83-108 | the two searches and the erasure amount to one function of the old list; the answer says whether the recipient was waited for |
| `ContinuousMsgSenders.ContinuousMsgSender.SendAll` | lab1/src/part1/multicast.cpp:53-60 | one pass sends the messages in list order, each exactly once to exactly the recipients that have not acknowledged it, so as many as are missing |
| `SenderWakeup.StepKeepsOk` | lab1/src/part1/multicast.cpp:40-81 | every step of the sending thread and of the threads that queue and acknowledge keeps the invariant of flag, list and sleep |
| `SenderWakeup.NoLostWakeup` | lab1/src/part1/multicast.cpp:40-81 | while the list has entries, a waiting sender finds the flag up and a sleeping one is about to be notified; no entry waits for nobody |
| `SenderWakeup.ListIsSent` | lab1/src/part1/multicast.cpp:40-81 | from every reachable state with a non-empty list, at most three steps without a new message send all of it |
| `SenderWakeup.IdleSleeps` | lab1/src/part1/multicast.cpp:40-65 | with an empty list and nothing queued, the thread has at most six steps to take from any state, can take one unless it sleeps, and so ends asleep |
| `SenderWakeup.FewEmptyPasses` | lab1/src/part1/multicast.cpp:40-81 | any run makes at most two passes over an empty list for each message queued |
| `SenderWakeup.TwoEmptyPasses` | lab1/src/part1/multicast.cpp:40-108 | and one message can cost two |
| `MulticastServices.MaxProposalIsUnique` | lab1/src/part1/multicast.cpp:212-224 | largest proposal, smallest proposer among equal ones: one pair only, whatever the iteration order |
| `MulticastServices.MaxProposalExists` | lab1/src/part1/multicast.cpp:212-224 | a non-empty map has such a pair |
| `MulticastServices.OneMoreProposal` | lab1/src/part1/multicast.cpp:212-224 | one more proposal becomes the maximum iff its number is larger, or equal and its proposer smaller |
| `MulticastServices.SeqRaisesCounter` | lab1/src/part1/multicast.cpp:321-339 | a sequence message raises the counter to at least its number iff it finds its entry, never lowers it, drops its cached acknowledgement, and changes nothing else if it finds none |
| `MulticastServices.LookupsThrow` | lab1/src/part1/multicast.cpp:281-345 | which messages end the process by a failing `.at`, which are answered, to whom and with what |
| `MulticastServices.LateDataIsNeverHarmless` | lab1/src/part1/multicast.cpp:281-299 | a data message that arrives after its delivery is queued a second time iff its id is no longer pending, and otherwise throws |
| `MulticastServices.LateDataIsDeliveredAgain` | lab1/src/part1/multicast.cpp:281-339 | if the sequence message is repeated, too, that data message is delivered a second time, at once and under its old key |
| `MulticastServices.EntryStays` | lab1/src/part1/multicast.cpp:281-345 | an undeliverable entry stays in the queue through any sequence of messages without its own sequence message |
| `MulticastServices.LateDataStays` | lab1/src/part1/multicast.cpp:281-345 | until then it waits in the queue, through any messages of any kind except a sequence message of its own |
| `MulticastServices.MulticastService.Multicast` | lab1/src/part1/multicast.cpp:168-183 | the next message id, with 32-bit wrap-around, queued for all recipients |
| `MulticastServices.MulticastService.ProcessDataMsg` | lab1/src/part1/multicast.cpp:281-299 | new state and answer, with the cached acknowledgement for repeats and the exceptions of `.at` |
| `MulticastServices.MulticastService.CreateSeqMessage` | lab1/src/part1/multicast.cpp:201-234 | the loop of `std::max_element`, in any iteration order, finds the unique maximal pair |
| `MulticastServices.MulticastService.ProcessAckMsg` | lab1/src/part1/multicast.cpp:301-319 | new state: the proposal is recorded once, and the last one queues the sequence message |
| `MulticastServices.MulticastService.ProcessSeqMsg` | lab1/src/part1/multicast.cpp:321-339 | new state and answer: marking, the larger counter, the cache entry dropped |
| `MulticastServices.MulticastService.ProcessSeqAckMsg` | lab1/src/part1/multicast.cpp:341-345 | new state: the recipient is struck |
| `MulticastServices.MulticastService.Listen` | lab1/src/part1/multicast.cpp:246-277 | one turn of the listening loop is the step function of the machine |
| `MulticastInvariant.StepKeepsInv` | lab1/src/part1/multicast.cpp:281-345 | multicasting, retransmitting, receiving, losing, repeating and reordering keep the invariant |
| `MulticastInvariant.ReachableHasInv` | lab1/src/part1/multicast.cpp:281-345 | so every reachable state within the counters has it |
| `MulticastHistory.RunGrows` | lab1/src/part1/multicast.cpp:281-345 | no message, proposal, final key or receipt is ever taken back or changed |
| `MulticastHistory.OneProposalEach` | lab1/src/part1/multicast.cpp:185-199 | all acknowledgements a process ever sends for a message carry the same proposal |
| `MulticastHistory.FinalKeyIsFinal` | lab1/src/part1/multicast.cpp:301-316 | the key of a message never changes once its sender has decided it |
| `MulticastHistory.NoLateData` | lab1/src/part1/multicast.cpp:83-108 | if no copy of a data message falls behind its sequence message under way, none travels behind one or to a process that has handled one, retransmissions included |
| `MulticastTheorems.RunExtendsLogs` | lab1/src/part1/multicast.cpp:458-466 | a log is only ever extended |
| `MulticastTheorems.DeliveryBarrier` | lab1/src/part1/multicast.cpp:408-471 | a message not delivered when another one is has, or will get, a larger final key than that one |
| `MulticastTheorems.PrefixAgreement` | lab1/src/part1/multicast.cpp:281-345 | the logs of any two processes are always one a prefix of the other |
| `MulticastTheorems.DeliveredAtMostOnce` | lab1/src/part1/multicast.cpp:281-339 | no process delivers a message twice, and only messages that were multicast, with their data |
| `MulticastTheorems.NoProcessCrashes` | lab1/src/part1/multicast.cpp:185-199 | no `.at` ever fails: a repeat before the sequence message always finds its cached acknowledgement |
| `MulticastTheorems.FinalKeysAreUnique` | lab1/src/part1/multicast.cpp:201-234 | no two messages ever share a final key |
| `MulticastTheorems.NumberedOnce` | lab1/src/part1/multicast.cpp:301-316 | a sequence message is queued only for an acknowledgement, and only for a message that has no final key yet |
| `MulticastTheorems.SenderKnows` | lab1/src/part1/multicast.cpp:301-319 | in every reachable state a sender's table holds, for each of its messages, exactly the first proposals of those that have acknowledged it, and the final key is decided iff all have, as their maximum |
| `MulticastTheorems.ArithmeticBound` | lab1/src/part1/multicast.cpp:283-291 | counters, proposals and final numbers are at most the number of first receipts, hence at most processes times messages: no 32-bit wrap below that |
| `MulticastTheorems.QuiescenceCompleteness` | lab1/src/part1/multicast.cpp:98-104 | with nothing left to retransmit, every hold-back queue is empty and all processes have delivered all messages exactly once, in one order |
| `MulticastProgress.WorkNeverGrows` | lab1/src/part1/multicast.cpp:53-108 | no step but a multicast increases the measure of missing acknowledgements |
| `MulticastProgress.NoStuckState` | lab1/src/part1/multicast.cpp:53-108 | from every reachable state a finite run of retransmissions and receipts completes delivery everywhere |
| `MulticastExamples.DeliveredTwiceAfterSwap` | lab1/src/part1/multicast.cpp:281-339 | a reachable state in which a copy of a data message, swapped behind its sequence message, makes a process deliver it twice |
| `SnapshotServices.WithoutFits` | lab1/src/part2/snapshot.cpp:126-128 | the copied peers fill the shorter vector exactly when the sender is one of the peers |
| `SnapshotServices.SnapshotService.SendMarkerMessageToPeers` | lab1/src/part2/snapshot.cpp:65-77 | one marker to every peer, in order |
| `SnapshotServices.SnapshotService.TakeLocalSnapshot` | lab1/src/part2/snapshot.cpp:95-107 | the recording loop opens all given channels, empty, and markers go out |
| `SnapshotServices.SnapshotService.TakeSnapshot` | lab1/src/part2/snapshot.cpp:86-93 | the initiator records its state and all channels |
| `SnapshotServices.SnapshotService.RemainingPeers` | lab1/src/part2/snapshot.cpp:126-128 | the copy into a vector of one slot less stays inside it iff the sender is a peer, and then holds the other peers in order |
| `SnapshotServices.SnapshotService.ProcessMarkerMsg` | lab1/src/part2/snapshot.cpp:122-138 | the first marker takes the snapshot without the sender's channel, unless the sender is no peer; every marker closes its channel |
| `SnapshotServices.SnapshotService.RecordIncomingMessages` | lab1/src/part2/snapshot.cpp:150-157 | a message is recorded iff its channel is open |
| `SnapshotTheorems.SnapshotAccounting` | lab1/src/part2/snapshot.cpp:95-138 | a process that recorded its state has sent each peer exactly one marker, or is still to send it, others none; a channel is open iff the state is recorded and its marker not handled |
| `SnapshotTheorems.ListedChannels` | lab1/src/part2/snapshot.cpp:95-131 | the initiator's snapshot lists all channels, any other process's all but one, whose marker has been handled |
| `SnapshotTheorems.LocalStateIsFinal` | lab1/src/part2/snapshot.cpp:95-131 | the recorded state is never replaced |
| `SnapshotTheorems.MarkersRunOut` | lab1/src/part2/snapshot.cpp:109-145 | each marker handled lowers the number of undelivered ones by one, and nothing else changes it |
| `SnapshotTheorems.SnapshotTerminates` | lab1/src/part2/snapshot.cpp:109-147 | once the initiator has recorded, no marker is under way or still to be sent iff all are handled iff all states are recorded and all channels closed |
| `SnapshotTheorems.SnapshotCanComplete` | lab1/src/part2/snapshot.cpp:86-147 | from every reachable state a run of the snapshot alone records all states, handles all markers and closes all channels, so the lock held while markers are sent blocks nobody for ever |
| `SnapshotCut.MarkerPlaceDecides` | lab1/src/part2/snapshot.cpp:122-157 | over channels that keep messages in order, the recorded channel is right, then and ever after, iff exactly the messages of the cut have been taken when its marker is handled; or, if the receiver had one in hand when it recorded its state, exactly one more, and what is recorded reads like the one in hand |
| `SnapshotCut.ConsistentCut` | lab1/src/part2/snapshot.cpp:95-157 | if markers keep their place among messages: what was sent before the sender's state, then what was sent between state and marker, is what the receiver's state has received, then what it had in hand, then what the channel recorded. The channel is right, and then holds exactly the messages sent and not received before the cut, iff nothing was in hand and nothing sent late, or one message each and what is recorded reads like the one in hand |
| `SnapshotExamples.MarkerCanOvertake` | lab1/src/part2/snapshot.cpp:65-77 | a reachable state in which a marker has overtaken a message, which is then neither received nor recorded |
| `SnapshotExamples.MessageInHandIsLost` | lab1/src/part1/multicast.cpp:256-275 | a reachable finished channel, with all order kept and nothing sent late, whose one message is neither received nor recorded, because it was in hand |
| `SnapshotExamples.LateMessageIsReceived` | lab1/src/part2/snapshot.cpp:97-106 | a reachable finished channel, with all order kept and nothing in hand, whose receiver's state has received a message that the sender's has not sent |
| `FailureDetectors.FailureDetector.Scan` | lab2/src/failure_detector.cpp:71-87 | the loop with its early exit is one function of the counts and the iteration order, and reports at most one peer |
| `FailureDetectors.FailureDetector.HeartBeat` | lab2/src/failure_detector.cpp:105-108 | a heartbeat resets the count of its sender |
| `FailureDetectors.FailureDetector.GetAlivePeers` | lab2/src/failure_detector.cpp:112-119 | exactly the peers in the map |
| `FailureDetectors.ScanHasEffect` | lab2/src/failure_detector.cpp:71-87 | in any order: all scanned counts fall by one, or one peer at zero is removed and counts fall by at most one |
| `FailureDetectors.ScanIsExact` | lab2/src/failure_detector.cpp:71-87 | a scan that reports a peer has counted down exactly the peers before it, all positive, and no other count; one that reports nobody has counted down all |
| `FailureDetectors.CountsStayOk` | lab2/src/failure_detector.cpp:65-110 | counts stay between 0 and 2 over any run |
| `FailureDetectors.CountTellsAge` | lab2/src/failure_detector.cpp:65-110 | a count and the scans since the last heartbeat add up to at least 2 |
| `FailureDetectors.ReportedOnlyWhenSilent` | lab2/src/failure_detector.cpp:65-90 | a peer is reported only by the third scan, or a later one, since its last heartbeat |
| `FailureDetectors.PunctualPeerStays` | lab2/src/failure_detector.cpp:65-110 | a peer that, from its first heartbeat on, is heard in every window of three scans is never removed |
| `FailureDetectors.AllSilentPeersReported` | lab2/src/failure_detector.cpp:65-90 | k peers that fall silent are all reported within k + 2 scans, in any iteration order, while no other peer is overdue |
| `FailureDetectors.SilentPeersReportedInTime` | lab2/src/failure_detector.cpp:65-110 | the same whenever every other peer is heard at least once in every window of three scans |
| `FailureDetectors.NoSooner` | lab2/src/failure_detector.cpp:82-85 | the bound is exact: k freshly heard peers are not all gone before |
| `NewViewMessages.PutWord` | lab2/src/serde.cpp:37-41 | a word stored in network order reads back, and no other byte changes |
| `NewViewMessages.FirstDifferenceDecides` | lab2/src/serde.cpp:37-41 | network order: one word is smaller than another iff it is at the first byte in which they differ |
| `NewViewMessages.SerializeNewViewMsg` | lab2/src/serde.cpp:34-43 | the loop stays inside the array iff at most ten members are announced, and then the buffer encodes the message; slots past the number of members keep their bytes |
| `NewViewMessages.DeserializeNewViewMsg` | lab2/src/serde.cpp:85-97 | the result is the message that the bytes encode; the size is checked, and the loop leaves the array iff more than ten members are announced |
| `NewViewMessages.SameBytesSameView` | lab2/src/serde.cpp:34-97 | equal bytes announce equal id and members, whatever lies in the unused slots |
| `NewViewMessages.ViewOnTheWire` | lab2/src/serde.cpp:34-43 | the first twenty bytes of the message for view 258 of the peers 1 and 10 |
| `NewViewMessages.GroupFits` | lab2/src/utils.cpp:35 | members among at most ten hosts fit the ten slots |
| `NewViewMessages.FillNewViewMsg` | lab2/src/membership.cpp:95-106 | the slots hold exactly the members, in ascending order |
| `NewViewMessages.InstallMembers` | lab2/src/membership.cpp:166-173 | the follower's peers are the members of the message without itself |
| `NewViewMessages.AnnounceAndInstall` | lab2/src/membership.cpp:95-173 | from the leader's set through the bytes to the follower's: id and members arrive unchanged, no loop leaves the ten slots |
| `Memberships.SendAllReaches` | lab2/src/membership.cpp:71-78 | sending reaches all peers iff all have a client, and otherwise exactly those before the first without one |
| `Memberships.GatherNeedsEveryOk` | lab2/src/membership.cpp:178-192 | the wait ends well iff every peer's next message is the Ok for this request |
| `Memberships.GatherStops` | lab2/src/membership.cpp:178-192 | otherwise it stops at the smallest peer without one, and for which of three reasons |
| `Memberships.OksAgree` | lab2/src/membership.cpp:234-247 | when nothing is left to be read, the right Ok of every peer with a client makes all agree |
| `Memberships.ChangeCompletes` | lab2/src/membership.cpp:234-261 | a change completes iff all remaining peers have clients and agree and an added peer has a client; the view id grows iff all agree |
| `Memberships.ChangeSends` | lab2/src/membership.cpp:234-261 | a change to which all agree has sent every peer that stays exactly the request and then the view in which the leader ends, an added peer the view alone, and others nothing; it has read one message of each peer asked; without a client for an added peer only the smaller ones have got the view |
| `Memberships.NoViewUnlessAgreed` | lab2/src/membership.cpp:65-84 | unless all agree, nobody has been sent more than the request |
| `Memberships.FirstJoin` | lab2/src/membership.cpp:234-261 | the first join of a group: the whole new state, and the one message sent, view 2 of 1 and 2 |
| `Memberships.LastReportWins` | lab2/src/membership.cpp:212-232 | the wait succeeds iff every peer with a client answers with a request; it yields the one reported by the largest id |
| `Memberships.CollectStops` | lab2/src/membership.cpp:212-232 | otherwise it stops at the smallest peer with a client that has sent nothing, or no request |
| `Memberships.CollectPops` | lab2/src/membership.cpp:216-229 | that wait takes exactly one message of each peer with a client |
| `Memberships.CollectKnown` | lab2/src/membership.cpp:212-232 | if all answer and all that report a change report the same one, the wait finds that change iff someone reports it, and leaves nothing to be read |
| `Memberships.RecoveryCompletes` | lab2/src/membership.cpp:286-311 | a recovery succeeds iff every survivor answers and, where a change is found, all agree and an added peer is a survivor; the view id grows iff a change is found and all agree; the members that result |
| `Memberships.RecoverySends` | lab2/src/membership.cpp:131-152 | a recovery that succeeds has sent exactly the members of its group, in this order: the new leader, the request if a change is completed, and the view in which the leader ends |
| `Memberships.MembershipService.ProcessRequestMsg` | lab2/src/membership.cpp:154-158 | the request becomes pending and the Ok carries its id |
| `Memberships.MembershipService.ProcessNewViewMsg` | lab2/src/membership.cpp:160-176 | view id and members are installed, nothing is pending |
| `Memberships.MembershipService.Send` | lab2/src/membership.cpp:65-84 | the sending loop, with the exception of a missing client |
| `Memberships.MembershipService.WaitForOkMsg` | lab2/src/membership.cpp:178-192 | the waiting loop, with its CHECKs |
| `Memberships.MembershipService.WaitForPendingRequestMsg` | lab2/src/membership.cpp:212-232 | the collecting loop, with its CHECK |
| `Memberships.MembershipService.SendNewLeaderMsg` | lab2/src/membership.cpp:131-152 | exactly the reachable peers are told, get a client and stay |
| `Memberships.MembershipService.ModifyGroupMembership` | lab2/src/membership.cpp:234-261 | new state, connections and outcome of a change |
| `Memberships.MembershipService.TakeOver` | lab2/src/membership.cpp:286-311 | new state, connections and outcome of the new leader's half of a failover |
| `MembershipRefinement.AskingIsSending` | lab2/src/membership.cpp:65-84 | the sending loop is a run of the machine's steps with the same effect on all connections |
| `MembershipRefinement.GatheringIsWaiting` | lab2/src/membership.cpp:178-192 | so is the wait for the Oks |
| `MembershipRefinement.AnnouncingIsSending` | lab2/src/membership.cpp:109-115 | so is the announcement of a view |
| `MembershipRefinement.CollectingIsWaiting` | lab2/src/membership.cpp:212-232 | so is the wait for the pending requests, with the same request found |
| `MembershipRefinement.GreetingIsReconnecting` | lab2/src/membership.cpp:139-151 | so is the announcement of the new leader, with the same peers kept and the same clients |
| `MembershipInvariant.StepKeepsOk` | lab2/src/membership.cpp:131-352 | joins, crashes, every step of leader and followers, and the crash of a leader keep the invariant |
| `MembershipInvariant.NewLeaderIsNewest` | lab2/src/membership.cpp:290-292 | no survivor holds a newer view than the new leader; one holds an older view iff the crash came between the announcements to the two |
| `MembershipInvariant.DrainedFollower` | lab2/src/membership.cpp:331-352 | having read what its crashed leader sent, a follower holds one of that leader's last two views and at most a removal is pending |
| `MembershipTheorems.NoCheckFails` | lab2/src/membership.cpp:185-190 | the CHECKs of leader and followers never fail, an Ok and a report carry the view their sender holds, and no client is ever missing where one is asked, heard or told |
| `MembershipTheorems.CommitPoint` | lab2/src/membership.cpp:248-257 | when the view id grows, all members that stay have this request pending, and hold the view that ends unless an inherited removal is being completed (for which see `CommitPointOfRecovery`) |
| `MembershipTheorems.InstalledBlock` | lab2/src/membership.cpp:160-176 | the views a follower installed are a contiguous block of the leader's, and its fields are those of the last |
| `MembershipTheorems.ViewAgreement` | lab2/src/membership.cpp:95-118 | under one leader, equal view ids mean equal views, whoever installed them and when |
| `MembershipTheorems.SameViewSameGroup` | lab2/src/membership.cpp:29-34 | members that hold the same view of a leader have the same group |
| `MembershipTheorems.LagIsBounded` | lab2/src/membership.cpp:248-260 | no follower misses more than one of its leader's views; its id is at most one less, or two less for a survivor that has installed none of them yet |
| `MembershipTheorems.ViewIdNeverFalls` | lab2/src/membership.cpp:160-164 | the view id of a peer never falls while it is up, not even across failovers or by becoming leader |
| `MembershipTheorems.RequestIdsDiffer` | lab2/src/membership.cpp:36-44 | of two requests of one leader the later has the larger id |
| `MembershipFailover.WhoReports` | lab2/src/membership.cpp:120-129 | a survivor reports the removal under way iff it was asked and not told the new view, for every crash point |
| `MembershipFailover.FailoverConverges` | lab2/src/membership.cpp:286-316 | a settled recovery has exactly the survivors as group, and all know the new leader and hold the same view, whose id is one above the new leader's iff another survivor reported a removal |
| `MembershipFailover.ViewIdReused` | lab2/src/membership.cpp:303-309 | the new leader's first view has an id of the crashed leader iff no removal is found, or the crash came before a view the leader had installed was announced to the new one; its members always differ; survivors hold that id iff no removal is found |
| `MembershipFailover.LagAfterFailover` | lab2/src/membership.cpp:286-316 | at every point of a recovery, how many views each survivor is behind: one if it missed one at the crash, one more once an inherited removal is committed, none once it has the new leader's view |
| `MembershipFailover.CommitPointOfRecovery` | lab2/src/membership.cpp:248-257 | when an inherited removal is committed, a member is two views behind iff it missed a view at the crash, and otherwise one |
| `MembershipOutcome.ChangeOutcome` | lab2/src/membership.cpp:234-261 | however leader and followers interleave, a change that settles leaves the leader as its program does when all agree, and every follower with that view and group |
| `MembershipOutcome.ChangeIsInstalled` | lab2/src/membership.cpp:160-261 | a follower that reads what its leader's program sends it in a change becomes the follower of the settled group, in every field |
| `MembershipOutcome.LeaderAfterRecovery` | lab2/src/membership.cpp:286-316 | however a recovery runs, for every crash point: where it settles, the leader's state is determined by the state at the crash |
| `MembershipOutcome.RecoveryOutcome` | lab2/src/membership.cpp:286-311 | and is the one that the new leader's program makes of the requests pending at the others; that program succeeds when it finds none, or all agree |
| `MembershipOutcome.RecoveryIsInstalled` | lab2/src/membership.cpp:194-316 | a survivor that reads what the new leader's program sends it becomes the follower of the settled group, in every field |
| `MembershipOutcome.ReportCarriesView` | lab2/src/membership.cpp:120-129 | what a survivor reports carries the view it holds |
| `MembershipAddition.MemberRecovers` | lab2/src/membership.cpp:286-311 | if a member leads after such a crash, it succeeds, with view id and members unchanged, iff no other member was asked; otherwise, when all agree, the view id grows and the announcement fails |
| `MembershipAddition.NewPeerLeadsAlone` | lab2/src/membership.cpp:286-302 | if the new peer leads, it tells nobody and succeeds as its own only member |
| `MembershipAddition.AdditionRecovery` | lab2/src/membership.cpp:286-311 | for every crash while the members are asked about a new peer: the new leader finishes and keeps all members iff there are none, or one of them has the smallest id and no other was asked |
| `MembershipExamples.IdUsedAgain` | lab2/src/membership.cpp:307-309 | a reachable crash with nothing under way, after which a view id is used again with other members |
| `MembershipExamples.UnannouncedIdUsedAgain` | lab2/src/membership.cpp:257-260 | a reachable crash between installing and announcing a view, after which its id is used again with other members though a removal is completed |
| `MembershipExamples.LagOfTwo` | lab2/src/membership.cpp:248-257 | a reachable recovery whose commit leaves a member two views behind |
| `MembershipAddition.RecoveredAdditionFails` | lab2/src/membership.cpp:303-306 | a reachable crash in an addition whose recovery raises the view id and then fails |
| `MembershipAddition.JoinerLeadsAlone` | lab2/src/membership.cpp:286-302 | a reachable crash in an addition after which the new peer leads alone, while a member waits for a leader |
| `MembershipProgress.QuietStepIsProgress` | lab2/src/membership.cpp:65-352 | every step that is not a join, a crash or a removal lowers the remaining work |
| `MembershipProgress.AlwaysSettles` | lab2/src/membership.cpp:234-352 | every run without such events is bounded beforehand, can be continued until nothing is left to do, and stops only there |

## Left out

- Sockets, name resolution, connection retries and message framing; sleeping, sending intervals, random drops and delays are nondeterministic steps.
- `lab0`, log lines, the text of recorded states, flags, `main`, build and container files.
- Host names are ids; the sockets of a peer are the messages it has sent and has yet to read.
- The serialization of `lab1` and of the `lab2` messages with fixed fields: each field is stored and read back alone.
- Fairness: completion results give a run that completes, or a bound on every run, not that schedulers choose well.
- NewViewMessages.DeserializeNewViewMsg: what the source reads and writes once its loop has left the array; the model only says when it does, here and in the serialization.
- Memberships.ChangeCompletes: request and view ids do not wrap; a group would need 2^32 changes.
- SenderWakeup.NoLostWakeup: the unlocked look at the list at the top of the sending loop is one atomic read.
- SnapshotTheorems.SnapshotAccounting: more than one initiator.
- MembershipFailover.FailoverConverges: crashes and joins during a recovery, and the crash of a leader before it has announced its first view. A crash during an addition is in `AdditionRecovery` only, up to the new leader's failure and while the members are being asked.
- The `leaderFailureDemo` flag is one instance of a crash after some followers have been asked.
