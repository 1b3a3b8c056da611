# ChoreoOS consensus core: a verified model

A Dafny model of the parts of ChoreoOS that keep a replicated choreography
consistent, and proofs of what they promise.

- `Transition.dfy` is the transition core: one node, one input, one new node and
  its effects, with one durable write in flight, messages held back until the
  write completes, request-numbered leader progress, snapshot boundaries and the
  quorum read barrier. `TransitionLoops.dfy` proves its loops.
- `Local.dfy` states what one node keeps under arbitrary inputs.
- `StepSends.dfy`, `StepFollower.dfy`, `StepElection.dfy` and `StepLeader.dfy` state
  what a step does with each input: the new node, the messages and the write.
- `Cluster.dfy` runs a fixed set of such nodes over a network that never forgets
  a packet, with crashes that leave any part of an interrupted write on disk.
- `Protocol.dfy`, `ProtocolEvents.dfy` and `ProtocolWrites.dfy` are Raft seen only
  through what reaches disk; `Simulation.dfy` and the `Sim*.dfy` files relate every
  step of a cluster to it.
- `Safety.dfy`, `SafetyReads.dfy`, `SafetyDisks.dfy` and `Requests.dfy` hold the
  results about whole runs. They speak about nodes and packets only.
- `Adapter.dfy`, `AdapterWrites.dfy`, `HostSteps.dfy`, `HostPins.dfy`,
  `HostTraces.dfy` and `Host.dfy` take staged targets to the store and drain a
  dispatch. `HostRuns.dfy` shows that hosts driven this way, stopped by failures
  and opened again, form a run of the cluster, and carries its safety over.
- `EntryLogs.dfy` is the shared chunked log, `Journal.dfy` and
  `JournalInstall.dfy` the redo journal, `Wal.dfy` and `WalLog.dfy` the write-ahead
  log, `Transfer.dfy` the chunked snapshot transfer.
- `Choreography*.dfy` and `Receipts.dfy` are the state machine: the rules of the
  domain, single and batch application, snapshots and replay, receipts and retries.

Conventions: unsigned 64-bit fields are naturals compared against their maximum
where the code does so. Checksums, command fingerprints and event text are
parameters of which nothing is assumed beyond what a statement names. Devices
fail after a number of operations, and the failing one may or may not take
effect. The application's verdict on an entry, and whether a received snapshot
verifies, are inputs.

Three properties hold only under a condition.

- A snapshot writes an absent choreography or dependency id as `-`, which is also a
  valid id: a choreography of that name does not survive a snapshot (`DashIsLost`).
  `DomainSurvives` and `SuffixExactly` show that this is the only loss.
- Committing a batch equals applying it event by event unless an event repeats an
  earlier command of the batch under the id of an event that is still kept
  (`NamingMatters`). `BatchExactly` shows that this is the only difference, and
  `BatchRefines` that there is none for events named after their commands.
- A snapshot transfer completes unless the follower already holds more of it than
  the first frame when the leader starts over (`Deliver`). It then stands still
  (`Stall`), and late frames can bring that about (`StallReached`).

## Model

| member | source | states |
|---|---|---|
| Safety.StateMachineSafety | cpp-runtime/src/raft/transition.cpp:120-138 | In every run, with crashes, compaction and snapshot installs, any two nodes at any two moments agree on every index both had committed: the entry where both retain it, the term where one has only its snapshot boundary |
| Safety.LeaderCompleteness | cpp-runtime/src/raft/transition.cpp:44-47 | What a node had committed in some term is in the durable log of every leader of that or a later term from then on, with the same entry and term |
| Safety.LogMatching | cpp-runtime/src/raft/transition.cpp:476-512 | If two nodes, at any two moments, have the same term at the same index, their logs are the same at every earlier index both retain, snapshot boundaries included |
| Safety.ElectionSafety | cpp-runtime/src/raft/transition.cpp:339-409 | No two nodes ever lead the same term in a run, whatever part of a write a crash leaves behind |
| Safety.ProgressTruthful | cpp-runtime/src/raft/transition.cpp:536-580 | Whenever a leader records a match for a peer whose durable term is still the leader's, that peer durably holds the leader's log through the match |
| Safety.GrantBacked | cpp-runtime/src/raft/transition.cpp:375-386 | Every granted vote ever sent is backed by a disk with a later term, or the same term and that vote |
| Safety.ReplyBacked | cpp-runtime/src/raft/transition.cpp:526-532 | Every positive append reply ever sent answers an append that was sent to its sender, states exactly what that append covered, and is backed by a disk with a later term, or the same term and those entries |
| Safety.SnapshotReplyBacked | cpp-runtime/src/raft/transition.cpp:303-312 | Every positive snapshot reply ever sent answers a ready request that was sent to its sender; the sender has committed the boundary, which carries the offered term |
| Requests.RunAsks | cpp-runtime/src/raft/transition.cpp:526-532 | In every run each positive append or snapshot reply, sent or held back behind a write, has its request in the network |
| Requests.StepAnswersOnly | cpp-runtime/src/raft/transition.cpp:449-534 | A positive reply that a step sends or holds back was held back before or answers the very message the step handles |
| SafetyReads.ReadBarrierHolds | cpp-runtime/src/raft/transition.cpp:218-237 | A Ready result belongs to an admitted read, its index is at least every commit index any node had when that read was admitted, and the node has applied through it |
| SafetyReads.ReadySafe | cpp-runtime/src/raft/transition.cpp:142-149 | A quorum of fresh acknowledgements excludes a quorum that had already left the leader's term, so no commit index was missed |
| SafetyReads.ReadOrigin | cpp-runtime/src/raft/transition.cpp:211-237 | Only an admitted BeginRead opens a read; every other input keeps or drops the open one |
| SafetyReads.ReadOpened | cpp-runtime/src/raft/transition.cpp:218-237 | Every open read of a run can be traced to the step that admitted it and to the commit indexes of that moment |
| SafetyDisks.DurableNeverRegresses | cpp-runtime/src/raft/file_engine_adapter.cpp:217-242 | In every run, crashes included, no term, commit, applied or snapshot index falls, no vote changes within its term and no retained committed entry changes |
| SafetyDisks.LocalRun | cpp-runtime/src/raft/transition.cpp:161-605 | From any valid state, under arbitrary inputs, disk and staged target stay valid, nothing goes backwards between any two moments, and only a failed write of the pending token halts the node |
| SafetyDisks.BootValid | cpp-runtime/src/raft/runtime_host.cpp:27-35 | Every valid recovered image with a positive term starts such a run |
| SafetyDisks.CrashAdvances | cpp-runtime/src/raft/file_engine_adapter.cpp:217-242 | Whatever part of an interrupted write survives, recovery finds a valid state that is not behind the old disk |
| Safety.RunExplained | cpp-runtime/src/raft/transition.cpp:161-605 | Every run of the cluster is explained by a history that keeps the protocol invariant and only grows |
| Local.StepKeeps | cpp-runtime/src/raft/transition.cpp:161-605 | Every step on every input keeps the local invariant, changes the disk image only to the staged target, and never both stages a write and sends or applies |
| Local.MergeShape | cpp-runtime/src/raft/transition.cpp:491-508 | An accepted append leaves the log alone if it already holds the entries and otherwise cuts it and ends with exactly those entries |
| Local.MergeKeepsCommitted | cpp-runtime/src/raft/transition.cpp:495-501 | An accepted append leaves the committed prefix alone |
| Local.TargetAppend | cpp-runtime/src/raft/transition.cpp:476-512 | The target of an accepted append is valid and advances the disk |
| Local.TargetInstall | cpp-runtime/src/raft/transition.cpp:288-300 | The target of a snapshot install is valid and advances the disk; it keeps exactly the entries after the boundary if the boundary entry has the right term, and nothing otherwise |
| Local.TargetCompact | cpp-runtime/src/raft/transition.cpp:243-260 | The compaction target is valid and advances the disk |
| Local.AdvancesTrans | cpp-runtime/src/raft/transition.cpp:23-32 | Not going backwards composes over any number of writes |
| TransitionLoops.MergeAccepts | cpp-runtime/src/raft/transition.cpp:495-501 | An append is refused exactly when it contradicts an entry at or below the commit index |
| TransitionLoops.MergeEntries | cpp-runtime/src/raft/transition.cpp:492-508 | The append loop computes that merge: acceptance, resulting log and untouched committed prefix |
| TransitionLoops.CountSupport | cpp-runtime/src/raft/transition.cpp:126-132 | The inner loop counts the leader and every peer whose match reaches the index |
| TransitionLoops.HighestCommittable | cpp-runtime/src/raft/transition.cpp:120-138 | The commit loop returns the highest own-term index stored on a quorum, or the commit index if there is none |
| TransitionLoops.RetainedSuffix | cpp-runtime/src/raft/transition.cpp:252-257 | The copy loop keeps exactly the entries after the new boundary |
| TransitionLoops.Compact | cpp-runtime/src/raft/transition.cpp:243-260 | Compaction by that loop yields a valid, advancing target |
| TransitionLoops.CompactAnswers | cpp-runtime/src/raft/transition.cpp:243-260 | Compaction changes no answer about the commit index or anything after it |
| StepFollower.AppendOutcome | cpp-runtime/src/raft/transition.cpp:472-532 | A sound append of the current or a later term: with the right term before it and no contradiction to a committed entry, the log then holds its entries after the unchanged earlier ones, the commit index is the larger of the old one and what the leader committed within the append, and the only reply, after any write, is a success through its end; a miss, a full log and a contradiction are refused with their hints, and the full log still learns the commit index |
| StepFollower.AppendRefused | cpp-runtime/src/raft/transition.cpp:449-471 | An append that is not sound is ignored; one of an earlier term is refused without a trace |
| StepFollower.VoteOutcome | cpp-runtime/src/raft/transition.cpp:358-387 | A vote is granted if and only if the vote is free in that term and the candidate's last term and index are not behind; the disk gains exactly the term and the vote, before the reply |
| StepFollower.VoteRefused | cpp-runtime/src/raft/transition.cpp:358-369 | A vote request that is not sound is ignored; one of an earlier term is refused without a trace |
| StepFollower.OfferOutcome | cpp-runtime/src/raft/transition.cpp:289-313 | A ready snapshot request beyond the commit index moves the boundary there and keeps later entries exactly if the boundary entry matches; otherwise it is confirmed if and only if the boundary carries the offered term |
| StepFollower.OfferObserved | cpp-runtime/src/raft/transition.cpp:279-288 | A request that is not ready makes the node adopt the term and follow, and nothing else |
| StepFollower.OfferRefused | cpp-runtime/src/raft/transition.cpp:262-278 | A snapshot request that is not sound, or would lower the term of the commit index, is ignored; one of an earlier term is refused |
| StepElection.TimeoutOutcome | cpp-runtime/src/raft/transition.cpp:339-356 | A timeout of a node that does not lead starts a candidacy in the next term: own vote staged, one numbered request per peer quoting where the log ends, all behind the write |
| StepElection.VoteReplyOutcome | cpp-runtime/src/raft/transition.cpp:389-409 | A granted reply of the current term from a known peer to a candidate is counted; with a majority, and only then, the node leads, with a new epoch, every peer at the end of the log with no match, and one probe per peer; a later term ends the candidacy |
| StepElection.CompletedOutcome | cpp-runtime/src/raft/transition.cpp:173-190 | The completed write becomes the disk image, everything that waited for it is released, an open read is answered if it can be, and a candidate's own vote is counted like any other |
| StepSends.SendsToAll | cpp-runtime/src/raft/transition.cpp:60-95 | Every idle known peer gets exactly one append with the entry at its next index, if there is one, or one snapshot request if it is behind the boundary; a peer with an unanswered append gets nothing; an open read notes the new numbers |
| StepSends.BeatsAll | cpp-runtime/src/raft/transition.cpp:432-447 | The same on a beat, except that an unanswered append is repeated unchanged |
| StepLeader.ProposeOutcome | cpp-runtime/src/raft/transition.cpp:411-430 | A leader with room stages exactly the command in its own term and holds back the requests to its peers; a full log is reported; everybody else ignores it |
| StepLeader.HeartbeatOutcome | cpp-runtime/src/raft/transition.cpp:432-447 | A leader's beat serves every configured peer once; nobody else beats |
| StepLeader.AppendReplyOutcome | cpp-runtime/src/raft/transition.cpp:536-580 | A reply to the awaited append moves the match to the end of that append, or the next index back to the hint but not below the match; it acknowledges an open read exactly if it answers an append sent for it, and a majority then answers the read; a later term ends the leadership; other replies change no progress |
| StepLeader.SnapshotReplyOutcome | cpp-runtime/src/raft/transition.cpp:316-337 | A reply to the open transfer ends it; a success moves match and next index to the boundary |
| StepLeader.AdvanceOutcome | cpp-runtime/src/raft/transition.cpp:582-592 | A leader's commit index moves to the highest entry of its own term that a majority stores, and nothing above it is such an entry |
| StepLeader.ApplyOutcome | cpp-runtime/src/raft/transition.cpp:594-602 | Exactly the next committed entry is staged as applied |
| StepLeader.CompactOutcome | cpp-runtime/src/raft/transition.cpp:243-260 | With everything committed applied, the boundary moves to the commit index with its term, and every later entry stays |
| StepLeader.BeginReadOutcome | cpp-runtime/src/raft/transition.cpp:218-237 | A free leader whose commit index carries its own term opens the read at that index, or answers it at once if it is a majority by itself; each refusal occurs exactly in its own case |
| StepLeader.ReadProbes | cpp-runtime/src/raft/transition.cpp:229-234 | Every idle peer within the log gets exactly one new append for the read, and the read waits for exactly these numbers |
| StepLeader.CancelReadOutcome | cpp-runtime/src/raft/transition.cpp:211-217 | Cancelling closes the read of that context and no other |
| StepLeader.FailedOutcome | cpp-runtime/src/raft/transition.cpp:191-200 | The failed write in flight stops the node and is lost; an open read becomes unavailable |
| StepLeader.RestartOutcome | cpp-runtime/src/raft/transition.cpp:201-210 | A restart keeps the disk image and forgets everything else |
| StepLeader.BusyOutcome | cpp-runtime/src/raft/transition.cpp:238-241 | While a write is in flight, or once stopped, every other input is ignored |
| Protocol.ChosenNotDead | cpp-runtime/src/raft/transition.cpp:120-138 | An entry acknowledged by a quorum in its term can never also be sealed off by a quorum of later terms |
| ProtocolEvents.GrantKeeps | cpp-runtime/src/raft/transition.cpp:375-381 | Granting a vote under the up-to-date rule keeps every protocol invariant |
| ProtocolEvents.AcceptedCovers | cpp-runtime/src/raft/transition.cpp:44-47 | A candidate log accepted by the up-to-date rule contains every own-term prefix of an earlier leader that the voter holds, unless it was never choosable |
| ProtocolEvents.StandKeeps | cpp-runtime/src/raft/transition.cpp:339-356 | Standing for election with a self-vote keeps every protocol invariant |
| ProtocolEvents.RaiseKeeps | cpp-runtime/src/raft/transition.cpp:316-325 | Adopting a later term keeps every protocol invariant |
| ProtocolEvents.FollowKeeps | cpp-runtime/src/raft/transition.cpp:491-508 | Overwriting a log with a covering prefix of the leader's log keeps every protocol invariant |
| ProtocolEvents.AcknowledgeKeeps | cpp-runtime/src/raft/transition.cpp:526-532 | Acknowledging what is durably shared with the leader keeps every protocol invariant |
| ProtocolEvents.OneLeader | cpp-runtime/src/raft/transition.cpp:404-407 | Two quorums of votes in one term elect the same candidate |
| ProtocolEvents.ElectKeeps | cpp-runtime/src/raft/transition.cpp:97-104 | Electing a candidate with a quorum keeps every protocol invariant |
| ProtocolEvents.ExtendKeeps | cpp-runtime/src/raft/transition.cpp:417-427 | A leader appending an entry of its own term keeps every protocol invariant |
| ProtocolEvents.ChosenAgree | cpp-runtime/src/raft/transition.cpp:120-138 | Any two chosen prefixes agree |
| ProtocolEvents.ChooseKeeps | cpp-runtime/src/raft/transition.cpp:582-592 | Committing an own-term entry acknowledged by a quorum keeps every protocol invariant and extends the committed prefix |
| ProtocolEvents.CrownKeeps | cpp-runtime/src/raft/transition.cpp:582-592 | A leader making a chosen commit index durable keeps every protocol invariant |
| ProtocolEvents.LearnKeeps | cpp-runtime/src/raft/transition.cpp:509-512 | A member learning a commit index from a leader keeps every protocol invariant |
| ProtocolWrites.WriteKeeps | cpp-runtime/src/raft/file_engine_adapter.cpp:217-242 | Every admissible durable write, as term, vote, log and commit together, keeps the protocol invariant |
| SimFollower.HandleRequestVote | cpp-runtime/src/raft/transition.cpp:358-387 | Answering a vote request keeps the relation between cluster and protocol |
| SimFollower.HandleAppend | cpp-runtime/src/raft/transition.cpp:449-534 | Answering an append, in all its refusals and acceptances, keeps the relation |
| SimFollower.HandleSnapshot | cpp-runtime/src/raft/transition.cpp:262-314 | Answering a snapshot request keeps the relation |
| SimFollower.HandleDeposed | cpp-runtime/src/raft/transition.cpp:319-325 | Stepping down for a later term keeps the relation |
| SimTargets.CanAppend | cpp-runtime/src/raft/transition.cpp:476-512 | The target of an accepted append is a write the protocol admits |
| SimTargets.CanInstall | cpp-runtime/src/raft/transition.cpp:288-300 | The target of a snapshot install, suffix included, is a write the protocol admits |
| SimTargets.CanVote | cpp-runtime/src/raft/transition.cpp:375-381 | The target of a granted vote is a write the protocol admits |
| SimSend.SendMany | cpp-runtime/src/raft/transition.cpp:60-95 | Probing any list of peers issues only fresh, truthful requests and keeps progress truthful |
| SimSend.BeatMany | cpp-runtime/src/raft/transition.cpp:432-447 | A heartbeat repeats unanswered requests unchanged and probes the other peers truthfully |
| SimLeader.HandleHeartbeat | cpp-runtime/src/raft/transition.cpp:432-447 | A heartbeat keeps the relation |
| SimLeader.CommitBeyond | cpp-runtime/src/raft/transition.cpp:225-227 | A commit index beyond a leader's own-term commit means a quorum has left the leader's term |
| SimLeader.HandleBeginRead | cpp-runtime/src/raft/transition.cpp:218-237 | Admitting a read keeps the relation and fixes what it must cover |
| SimLeader.HandleAppendReply | cpp-runtime/src/raft/transition.cpp:536-580 | Recording an append reply keeps the relation |
| SimLeader.HandleSnapshotReply | cpp-runtime/src/raft/transition.cpp:316-337 | Recording a snapshot reply keeps the relation |
| SimLeader.HandlePropose | cpp-runtime/src/raft/transition.cpp:411-430 | Staging an own entry keeps the relation |
| SimLeader.SupportChooses | cpp-runtime/src/raft/transition.cpp:126-136 | Matches recorded for a quorum are acknowledgements of a quorum |
| SimLeader.HandleAdvance | cpp-runtime/src/raft/transition.cpp:582-592 | Advancing the commit index keeps the relation |
| SimElection.HandleElection | cpp-runtime/src/raft/transition.cpp:339-356 | Standing for election keeps the relation |
| SimElection.EnthronedOK | cpp-runtime/src/raft/transition.cpp:97-104 | A quorum of votes in a term nobody leads yet makes one leader |
| SimElection.HandleVoteReply | cpp-runtime/src/raft/transition.cpp:389-409 | Counting a vote, perhaps taking office, keeps the relation |
| SimDisk.HandleApply | cpp-runtime/src/raft/transition.cpp:594-602 | Applying the next entry keeps the relation |
| SimDisk.HandleCompact | cpp-runtime/src/raft/transition.cpp:243-260 | Compacting keeps the relation |
| SimDisk.HandleCompleted | cpp-runtime/src/raft/transition.cpp:173-190 | Completing a write, releasing its messages and perhaps taking office keeps the relation |
| SimDisk.HandleFailed | cpp-runtime/src/raft/transition.cpp:191-200 | A failed write stops the node and keeps the relation |
| SimDisk.CrashRecovers | cpp-runtime/src/raft/file_engine_adapter.cpp:217-242 | Every image recovery can find after an interrupted write is one an admissible write could have left |
| SimDisk.HandleCrash | cpp-runtime/src/raft/runtime_host.cpp:23-35 | Restarting from any such image keeps the relation |
| SimRelease.ReleaseAll | cpp-runtime/src/raft/transition.cpp:173-180 | All messages of a completed write are true once its target is durable |
| SimSteps.StepSim | cpp-runtime/src/raft/transition.cpp:161-605 | Every step of the cluster keeps the relation |
| SimSteps.StartSim | cpp-runtime/src/raft/runtime_host.cpp:14-36 | A cluster of empty stores satisfies the relation |
| Adapter.DeltaFaithful | cpp-runtime/src/raft/runtime_host.cpp:71-83 | Every staged state update passes all index, term, vote and capacity checks of the write path, and executing its delta rebuilds exactly the target |
| Adapter.AcceptedAdvances | cpp-runtime/src/raft/file_engine_adapter.cpp:157-215 | Whatever delta the checks let through leaves a valid state that is not behind the old one |
| Adapter.LookupsAgree | cpp-runtime/src/state/store.cpp:442-472 | The store's last index and term lookups answer like the recovered image |
| Adapter.TruncatedImage | cpp-runtime/src/state/store.cpp:545-552 | Truncating the log file cuts the recovered image at that index |
| Adapter.AppendedImage | cpp-runtime/src/state/store.cpp:474-492 | Appending a record appends the entry to the recovered image |
| Adapter.CommittedImage | cpp-runtime/src/state/store.cpp:554-596 | Committing moves commit and applied index of the recovered image together |
| Adapter.InstalledImage | cpp-runtime/src/state/store.cpp:672-761 | Installing a snapshot turns the recovered image into the core's install target |
| Adapter.SnapshottedImage | cpp-runtime/src/state/store.cpp:613-631 | Taking a local snapshot turns the recovered image into the core's compaction target |
| Adapter.DiscardedImage | cpp-runtime/src/state/store.cpp:633-649 | Dropping records before the boundary changes no recovered image |
| Adapter.Store.PersistConsensus | cpp-runtime/src/state/store.cpp:655-670 | Writes term and vote or leaves them; success never lowers the term |
| Adapter.Store.TruncateAfter | cpp-runtime/src/state/store.cpp:545-552 | Keeps exactly the records through the index, or fails without or with that effect |
| Adapter.Store.AppendEvent | cpp-runtime/src/state/store.cpp:474-492 | Appends the entry at the next index and at no other |
| Adapter.Store.CommitThrough | cpp-runtime/src/state/store.cpp:554-596 | Commits only what is in the log |
| Adapter.Store.InstallSnapshot | cpp-runtime/src/state/store.cpp:672-761 | Replaces all three files at once or not at all |
| Adapter.Store.Checkpoint | cpp-runtime/src/state/store.cpp:772-779 | Moves the snapshot boundary to the applied index or leaves it |
| Adapter.Store.DiscardCompactedPrefix | cpp-runtime/src/state/store.cpp:763-770 | Drops the records before the boundary or leaves them |
| AdapterWrites.CheckTerms | cpp-runtime/src/raft/file_engine_adapter.cpp:183-190 | The term loop accepts exactly the appends whose terms neither decrease nor exceed the new term |
| AdapterWrites.FileEngineAdapter.WriteMetadata | cpp-runtime/src/raft/file_engine_adapter.cpp:217-220 | Writes term and vote only if they change |
| AdapterWrites.FileEngineAdapter.CutLog | cpp-runtime/src/raft/file_engine_adapter.cpp:222-225 | Cuts the log back to the kept index |
| AdapterWrites.FileEngineAdapter.AppendAll | cpp-runtime/src/raft/file_engine_adapter.cpp:234-238 | Appends one record after the other; a failure leaves a prefix of them |
| AdapterWrites.FileEngineAdapter.WriteDelta | cpp-runtime/src/raft/file_engine_adapter.cpp:217-242 | Metadata, cut, appends, commit: success gives the delta's result, any failure one of the listed crash points |
| AdapterWrites.FileEngineAdapter.PersistDelta | cpp-runtime/src/raft/file_engine_adapter.cpp:157-258 | Refuses without a trace what fails a check; success gives exactly the delta's result; any failure leaves one of its crash points and requires recovery |
| AdapterWrites.FileEngineAdapter.InstallSnapshot | cpp-runtime/src/raft/file_engine_adapter.cpp:107-143 | Success gives the core's install target; any failure leaves the old image, the old one with new term and vote, or the new one |
| AdapterWrites.FileEngineAdapter.Checkpoint | cpp-runtime/src/raft/file_engine_adapter.cpp:260-277 | Success gives the core's compaction target; any failure leaves the old or the new image |
| AdapterWrites.DeltaPointRecoverable | cpp-runtime/src/raft/file_engine_adapter.cpp:217-242 | Every crash point of a staged write is one the cluster model lets a crash recover |
| AdapterWrites.DeltaPointSafe | cpp-runtime/src/raft/file_engine_adapter.cpp:217-242 | Every crash point of a staged write is a valid state, keeps the committed prefix and is not behind the old disk |
| HostSteps.StepAsks | cpp-runtime/src/raft/transition.cpp:49-58 | Every write a step asks for fits its kind, and every vote on disk or staged names a configured member |
| HostSteps.StepApplies | cpp-runtime/src/raft/transition.cpp:594-602 | Every step releases nothing, or exactly the next committed entry while applying it, or replaces the applied prefix by a snapshot beyond the commit index |
| HostSteps.ReleaseIsNext | cpp-runtime/src/raft/transition.cpp:594-602 | A released entry is the committed one at the next index and is applied by that very step |
| HostSteps.AppliedInOrder | cpp-runtime/src/raft/transition.cpp:594-602 | Each index is released at most once and in increasing order |
| HostSteps.NothingSkipped | cpp-runtime/src/raft/transition.cpp:594-602 | Every index that became applied was released by some step or covered by a snapshot install |
| HostSteps.StepInstalls | cpp-runtime/src/raft/transition.cpp:288-312 | Only a ready request for a snapshot beyond the commit index makes a step ask for an install, and then for exactly that boundary |
| HostPins.StepFlown | cpp-runtime/src/raft/transition.cpp:60-95 | Every step asks only for snapshots its peers are then waiting for, under new numbers and at the newest boundary, and asks for or defers every new one |
| HostPins.PinStep | cpp-runtime/src/raft/runtime_host.cpp:95-116 | A step can ask only for snapshots that are pinned already or lie at the durable boundary, and pinning them leaves every awaited snapshot pinned |
| Host.RuntimeHost.Persist | cpp-runtime/src/raft/runtime_host.cpp:50-93 | A successful write leaves exactly the requested state on disk; a failed one leaves an image the cluster model can recover, and fails only for the device, the application or a snapshot that does not match |
| Host.RuntimeHost.PersistUpdate | cpp-runtime/src/raft/runtime_host.cpp:62-84 | An ordinary update becomes a delta that cannot be refused for its indexes, terms, vote or size; an application step writes nothing |
| Host.RuntimeHost.Collect | cpp-runtime/src/raft/runtime_host.cpp:95-116 | Passes on every message, result and snapshot request of a step, pins what is new, and refuses after a halt or when the durable snapshot does not match; it accepts whatever a step can ask for |
| Host.RuntimeHost.Advance | cpp-runtime/src/raft/runtime_host.cpp:118-133 | Takes one input and its write to completion as core steps, with exactly what the core released; a failure leaves an image those steps can leave, from which a host can be opened |
| Host.RuntimeHost.Dispatch | cpp-runtime/src/raft/runtime_host.cpp:135-166 | Terminates. Success: nothing is pending, applied equals commit, disk equals node, no further entry can be committed, no compaction is due, and messages, snapshot work, capacity signal and read results are exactly what the core released. Failure: only for a failed device, a refusing application or a snapshot that does not match; nothing is released, the host stops, and the files hold a valid image, not behind, that the interrupted steps can leave |
| Host.RuntimeHost.Halt | cpp-runtime/src/raft/runtime_host.cpp:38-48 | Stops the node, drops the staged write and everything volatile, keeps the disk image |
| Host.RuntimeHost.Unpin | cpp-runtime/src/raft/runtime_host.cpp:150-161 | Keeps exactly the snapshots whose transfer is still wanted |
| HostTraces.DrainApplies | cpp-runtime/src/raft/runtime_host.cpp:141-142 | One application round applies exactly the next committed entry |
| HostTraces.DrainAdvances | cpp-runtime/src/raft/runtime_host.cpp:140-140 | After the commit round of a dispatch no own entry above the commit index is stored by a majority |
| HostTraces.DrainStaysCommitted | cpp-runtime/src/raft/runtime_host.cpp:141-145 | Applying and compacting change nothing about that |
| Host.Reopen | cpp-runtime/src/raft/runtime_host.cpp:14-36 | A stopped host opens again from its files as a fresh node over the recovered image |
| HostRuns.DispatchIn | cpp-runtime/src/raft/runtime_host.cpp:135-166 | A dispatch, successful or not, is one step of the abstract hosts, and the network gains exactly what it returned |
| HostRuns.ReopenIn | cpp-runtime/src/raft/runtime_host.cpp:14-36 | Opening a stopped host is one step of the abstract hosts |
| HostRuns.HostsRefine | cpp-runtime/src/raft/runtime_host.cpp:118-166 | Every run of hosts, with failed dispatches, processes dying at any point and restarts, is a run of the cluster |
| HostRuns.HostsAgree | cpp-runtime/src/raft/runtime_host.cpp:118-166 | Any two hosts at any two moments agree on every index both had committed |
| HostRuns.OneLeadingHost | cpp-runtime/src/raft/runtime_host.cpp:118-166 | No two hosts ever lead the same term |
| HostRuns.HostReadBarrier | cpp-runtime/src/raft/runtime_host.cpp:95-116 | A Ready result a host returns belongs to a dispatched read, is at least every commit index any running host had then, and the host has applied through it |
| EntryLogs.Arena.Push | cpp-runtime/include/choreoos/raft/entry_log.hpp:49-63 | Appends to one log; every other handle keeps its contents |
| EntryLogs.Arena.Set | cpp-runtime/include/choreoos/raft/entry_log.hpp:64-70 | Replaces one entry of one log; every other handle keeps its contents |
| EntryLogs.Arena.Shrink | cpp-runtime/include/choreoos/raft/entry_log.hpp:76-84 | Cuts one log; every other handle keeps its contents |
| EntryLogs.Arena.Resize | cpp-runtime/include/choreoos/raft/entry_log.hpp:71-85 | Cuts or pads one log; every other handle keeps its contents |
| EntryLogs.Arena.Clear | cpp-runtime/include/choreoos/raft/entry_log.hpp:86-86 | Empties one log; every other handle keeps its contents |
| EntryLogs.Arena.Copy | cpp-runtime/include/choreoos/raft/entry_log.hpp:17-21 | A copy has the same contents at the cost of one reference |
| EntryLogs.Arena.Detach | cpp-runtime/include/choreoos/raft/entry_log.hpp:147-149 | Makes the directory exclusively owned without changing any contents |
| EntryLogs.Arena.PickChunk | cpp-runtime/include/choreoos/raft/entry_log.hpp:52-61 | The chunk written in place is used by nobody else |
| EntryLogs.Arena.Validate | cpp-runtime/include/choreoos/raft/entry_log.hpp:150-157 | The rescan accepts exactly the logs with nonzero, non-decreasing terms |
| EntryLogs.Arena.TermsValid | cpp-runtime/include/choreoos/raft/entry_log.hpp:42-44 | The cached bit and two lookups decide validity of the whole log |
| EntryLogs.Arena.CommonPrefixSize | cpp-runtime/include/choreoos/raft/entry_log.hpp:120-135 | With both sharing shortcuts, the length of the longest common prefix |
| EntryLogs.Arena.Equal | cpp-runtime/include/choreoos/raft/entry_log.hpp:136-138 | Equality of logs is equality of contents |
| EntryLogs.GrownItems | cpp-runtime/include/choreoos/raft/entry_log.hpp:49-63 | The chunk layout after an append stands for the sequence with one entry more |
| EntryLogs.CutItems | cpp-runtime/include/choreoos/raft/entry_log.hpp:76-84 | The chunk layout after a cut stands for the prefix |
| EntryLogs.OrderedGrows | cpp-runtime/include/choreoos/raft/entry_log.hpp:51-51 | The cached check can be extended by looking at the last entry only |
| Journal.DecodeEncode | cpp-runtime/src/storage/transaction.cpp:29-80 | Every encodable transaction decodes to itself |
| Journal.EncodeDecode | cpp-runtime/src/storage/transaction.cpp:56-80 | Every accepted journal is the one encoding of its transaction |
| JournalInstall.LossConsistent | cpp-runtime/src/storage/transaction.cpp:82-106 | A power loss at any moment leaves a state recovery can handle and cannot take back a durable decision |
| JournalInstall.Directory.Apply | cpp-runtime/src/storage/transaction.cpp:82-106 | Replaces the three files and deletes the journal; every failure leaves old and new images the journal can still finish |
| JournalInstall.Directory.Commit | cpp-runtime/src/storage/transaction.cpp:110-133 | Decided exactly when the journal became durable; no effect if it never became visible |
| JournalInstall.Directory.Recover | cpp-runtime/src/storage/transaction.cpp:135-149 | A completed recovery leaves all old or all new images and no journal, all new if the decision was durable |
| JournalInstall.Survive | cpp-runtime/src/storage/transaction.cpp:110-149 | For any number of crashes during install and recovery, the first completed recovery leaves all three new images if the journal became durable and all old ones if it never became visible |
| JournalInstall.LaterWritesSurvive | cpp-runtime/src/storage/transaction.cpp:135-141 | After a settled install no power loss lets an old journal overwrite a later write |
| Transfer.Link.SendChunk | cpp-runtime/src/replication/core_replica.cpp:432-461 | The next frame is the slice of the pinned payload at the offset, under a correlation id no earlier frame of the term has, and is marked last exactly at the end; a bad offset or used-up ids send nothing |
| Transfer.Link.OnReply | cpp-runtime/src/replication/core_replica.cpp:560-584 | A final acknowledgement is accepted exactly when it is positive, of the current term, carries the number of the current last frame and ends where that frame ends; then the follower has the boundary. A refusal starts over, an acknowledged frame is followed by the next, any other offset is ignored |
| Transfer.Link.Assemble | cpp-runtime/src/replication/core_replica.cpp:513-558 | A chunk that continues the held bytes is appended, one inside them is recognised as a repeat, anything else starts over; the boundary is installed exactly when the last chunk completes the whole payload and it verifies |
| Transfer.Link.Confirm | cpp-runtime/src/replication/core_replica.cpp:501-512 | A boundary at or below the commit index is confirmed exactly with the same term and no other hash at the same index |
| Transfer.Link.OnChunk | cpp-runtime/src/replication/core_replica.cpp:475-558 | A malformed or older frame changes nothing; any other is answered as the boundary and the held bytes require, and a boundary is confirmed only once it is committed at the follower with the offered term |
| Transfer.Link.Run | cpp-runtime/src/replication/core_replica.cpp:432-584 | Over every run under loss, repetition, reordering and restarts, the assembled bytes are a prefix of the pinned payload, and every boundary the leader accepted is committed at the follower with the offered term where it still knows it |
| Transfer.Link.Deliver | cpp-runtime/src/replication/core_replica.cpp:432-584 | An undisturbed transfer of any payload ends with the boundary accepted by the leader and on the follower's disk, provided the follower does not hold more of the same transfer than its first frame |
| Transfer.Link.Stall | cpp-runtime/src/replication/core_replica.cpp:525-533 | Otherwise a frame and its reply leave both sides as they were: the follower acknowledges a later offset, which the leader ignores |
| Transfer.StallReached | cpp-runtime/src/replication/core_replica.cpp:560-579 | Such a state is reached by one follower restart and two late frames |
| Transfer.CoreMoves | cpp-runtime/src/replication/core_replica.cpp:131-150 | Whatever a core does to its disk between frames is covered by the moves of such a run |
| Transfer.CoreObserves | cpp-runtime/src/raft/transition.cpp:262-288 | The header of a frame makes the core adopt its term and nothing else |
| Transfer.CoreAnswers | cpp-runtime/src/raft/transition.cpp:289-313 | Under any request number the core confirms a committed boundary exactly with the same term, installs one beyond the commit index, and answers accordingly |
| Transfer.Extends | cpp-runtime/src/replication/core_replica.cpp:539-548 | The next chunk extends a proper prefix, and only the last one completes the payload |
| Transfer.InsideIsNotLast | cpp-runtime/src/replication/core_replica.cpp:528-538 | A chunk that lies within the assembled bytes is never the last one |
| WalLog.CutLoads | cpp-runtime/src/storage/wal.cpp:146-230 | Cutting the file at any byte after the header leaves a sound file that loads to exactly the whole records before the cut |
| WalLog.WriteAheadLog.Load | cpp-runtime/src/storage/wal.cpp:146-230 | The load loop computes the scan: events, record ends, trimmed tail, or refusal of corruption |
| WalLog.WriteAheadLog.Reopen | cpp-runtime/src/storage/wal.cpp:26-38 | Reopening any cut restores a log whose file is again its own encoding |
| WalLog.WriteAheadLog.Restart | cpp-runtime/src/storage/wal.cpp:146-230 | Opening a file restores exactly the events it opens to |
| WalLog.AppendOpens | cpp-runtime/src/storage/wal.cpp:66-91 | A file cut anywhere inside a new last record opens to the old events, the whole file to the new ones |
| WalLog.WriteAheadLog.Append | cpp-runtime/src/storage/wal.cpp:66-91 | Success keeps file, events and record ends in step. A short write or a failed flush leaves the events alone; whatever part of the record a crash leaves opens to the old events, or to the new ones if it is whole |
| WalLog.WriteAheadLog.TruncateAfter | cpp-runtime/src/storage/wal.cpp:93-112 | Keeps exactly the leading records through the index, file included. A failed resize changes nothing; a failed flush leaves the file cut and the events whole, and both the old and the cut file open to what they encode |
| WalLog.WriteAheadLog.Rewrite | cpp-runtime/src/storage/wal.cpp:114-135 | The file is the complete old log or the complete new one whatever fails, and opens to it; the events change only if the flush succeeded too |
| Wal.RecordFound | cpp-runtime/src/storage/wal.cpp:45-62 | A whole record, wherever it lies, is recognised with its payload |
| Wal.ScanGood | cpp-runtime/src/storage/wal.cpp:146-230 | A file that loads consists of whole records, each framed, checksummed and parsed with the index and term of its frame, up to a torn rest |
| Wal.ScanCorrupt | cpp-runtime/src/storage/wal.cpp:146-230 | A file is refused only for a record behind whole ones that is neither whole nor the rest of a torn write |
| Bytes.WriteRead | cpp-runtime/src/storage/file_util.cpp:57-67 | Little-endian integers read back |
| Bytes.ReadWrite | cpp-runtime/src/storage/file_util.cpp:73-87 | Every byte string is the encoding of what it reads as |
| ChoreographyBatch.BatchRefines | cpp-runtime/src/state/machine.cpp:946-975 | For events named after their commands, staging and publishing a batch has the same outcome, error or state, as applying it event by event, from any state |
| ChoreographyBatch.BatchExactly | cpp-runtime/src/state/machine.cpp:946-975 | For events of any names: staging refuses only what single application refuses, and what it accepts has the same outcome if and only if no event repeats an earlier command of the batch under the id of a kept event |
| ChoreographyBatch.ApplyAllFiled | cpp-runtime/src/state/machine.cpp:434-539 | Applying keeps every remembered event filed under its own id with a command that is known and its own |
| ChoreographyBatch.NamingMatters | cpp-runtime/src/state/machine.cpp:403-432 | After one election marker, a create followed by the same create under the marker's id is accepted by staging and refused by single application |
| Choreography.ApplyKeeps | cpp-runtime/src/state/machine.cpp:434-539 | Applying keeps remembered events and receipts within the applied prefix, with distinct receipt indexes |
| Choreography.ApplySplit | cpp-runtime/src/state/machine.cpp:546-565 | Replay can be cut anywhere and resumed |
| ChoreographyDomain.CreateOutcome | cpp-runtime/src/state/machine.cpp:248-263 | A choreography is created if and only if there is none yet and the travel limit is not negative |
| ChoreographyDomain.AddOutcome | cpp-runtime/src/state/machine.cpp:265-282 | A dancer is added if and only if unknown, on the stage and on a free mark or with overlap allowed; nothing else changes |
| ChoreographyDomain.RemoveOutcome | cpp-runtime/src/state/machine.cpp:284-299 | Exactly an active dancer can be removed; the mark is kept and the dancer becomes inactive |
| ChoreographyDomain.MoveOutcome | cpp-runtime/src/state/machine.cpp:301-325 | An active dancer moves if and only if the mark is on the stage, within the travel limit and free; the position becomes the requested one and nothing else changes |
| ChoreographyDomain.FormationOutcome | cpp-runtime/src/state/machine.cpp:327-346 | A formation is defined if new and changed if known, exactly for a non-empty list of active dancers, and lists them once each in ascending order |
| ChoreographyDomain.CueOutcome | cpp-runtime/src/state/machine.cpp:348-358 | A cue is recorded if and only if its id is new and what it depends on exists and comes no later |
| ChoreographyDomain.ErrorMeans | cpp-runtime/src/state/machine.cpp:183-358 | Every error of an event is justified by the choreography and the event |
| ChoreographyDomain.EventCoheres | cpp-runtime/src/state/machine.cpp:460-510 | Every accepted event keeps dancers on stage and on marks of their own, formations made of known dancers in order, and cues after what they depend on |
| ChoreographyDomain.ReplayCoheres | cpp-runtime/src/state/machine.cpp:546-565 | Every replayed log leads to such a choreography |
| ChoreographyDomain.ApplyOutcome | cpp-runtime/src/state/machine.cpp:434-539 | A new event is applied if and only if its schema is known, its index is the next one and the choreography accepts it; it is then remembered, with a receipt unless it is a marker |
| ChoreographyDomain.ApplyAgain | cpp-runtime/src/state/machine.cpp:403-411 | A remembered event is accepted again without effect; anything else under its id is refused |
| ChoreographyDomain.ApplyReceipted | cpp-runtime/src/state/machine.cpp:413-430 | Where only the receipt is kept, an event is recognised by index, term and fingerprint, and anything else under its command is refused |
| Receipts.FingerprintRoundTrip | cpp-runtime/src/state/machine.cpp:22-48 | Every 64-bit fingerprint survives its 11-character text |
| Receipts.FingerprintCanonical | cpp-runtime/src/state/machine.cpp:31-48 | Every accepted text is the one encoding of its value |
| Receipts.OverflowTest | cpp-runtime/src/state/machine.cpp:42-44 | The first-digit test is exactly the 64-bit bound |
| Receipts.WriteFingerprint | cpp-runtime/src/state/machine.cpp:22-29 | The encoding loop produces that text |
| Receipts.ReceiptsRoundTrip | cpp-runtime/src/state/machine.cpp:680-692 | Delta-coded receipts read back to the same map |
| Receipts.SortReceipts | cpp-runtime/src/state/machine.cpp:676-679 | Receipts are listed once each by increasing index |
| ChoreographySnapshot.SnapshotRoundTrip | cpp-runtime/src/state/machine.cpp:640-891 | Reading a snapshot gives the state it was taken of, up to the absent-id marker and event bodies |
| ChoreographySnapshot.DomainSurvives | cpp-runtime/src/state/machine.cpp:640-891 | The domain survives a snapshot if and only if no choreography or dependency id in it is the marker; receipts always survive |
| ChoreographySnapshot.DashIsLost | cpp-runtime/src/state/machine.cpp:645-645 | The log that creates a choreography named like the marker replays, and the domain read back from its snapshot differs |
| ChoreographySnapshot.SnapshotPlusSuffix | cpp-runtime/src/state/machine.cpp:640-891 | Restoring the snapshot of any prefix and applying the rest ends in the same domain, index, term and receipts as full replay |
| ChoreographySnapshot.SuffixExactly | cpp-runtime/src/state/machine.cpp:640-891 | Resuming reaches the replayed domain if and only if no id in the snapshot's domain is the marker |
| ChoreographyEngine.Engine.Submit | cpp-runtime/src/state/machine.cpp:894-912 | A retry with the same fingerprint returns the original index and term, a different one is refused. A new command is accepted if and only if its schema is known, it creates the choreography or is addressed to it, the rules allow it and its id is not that of a kept event; it is then applied once, as the event that describes it, at the next index |
| ChoreographyEngine.Engine.ApplyCommitted | cpp-runtime/src/state/machine.cpp:914-920 | A new event is applied if and only if it has the next index and the choreography's rules accept it, with exactly their effect; a remembered one changes nothing; anything refused changes nothing |
| ChoreographyEngine.Engine.CommitBatch | cpp-runtime/src/state/machine.cpp:946-975 | The staging loop and the merge compute the staged outcome for any batch; whatever single application accepts they accept with the same state and the same newly applied events; a refused batch publishes nothing |
| ChoreographyEngine.Engine.RetainHistoryFrom | cpp-runtime/src/state/machine.cpp:977-985 | Keeps exactly the bodies from the anchor on, unchanged, and exactly the commands that still need an entry; receipts and domain stay |
| ChoreographyEngine.TrimBodies | cpp-runtime/src/state/machine.cpp:922-933 | Keeps exactly the bodies from the anchor on and drops exactly the commands of trimmed events that were election markers or have a receipt |
| ChoreographyEngine.BatchKeeps | cpp-runtime/src/state/machine.cpp:946-975 | A committed batch of any names keeps every command applied at most once with an unchanged receipt |
| ChoreographyEngine.TrimAliases | cpp-runtime/src/state/machine.cpp:934-943 | Drops exactly the aliases whose receipt lies below the anchor |
| ChoreographyEngine.Engine.Reload | cpp-runtime/src/state/machine.cpp:702-891 | Restarting from a snapshot keeps all receipts, and the domain exactly when no id is the marker |
| ChoreographyEngine.Engine.Run | cpp-runtime/src/state/machine.cpp:894-985 | Over any run of submits, single and batch commits, trimming and restarts, no command other than an election marker is applied twice, no receipt ever changes and the choreography stays coherent |
| ChoreographyEngine.ProposeAccepts | cpp-runtime/src/state/machine.cpp:362-401 | A new command is proposed if and only if it is acceptable as the next event |
| ChoreographyEngine.NormalTwice | cpp-runtime/src/state/machine.cpp:50-70 | The receipt of an event carries the fingerprint of the command it came from |

## Left out

- Transition.Step: request ids, persist tokens and the leadership epoch are unbounded, so their wrap-around is not modelled.
- Transition.Step: commands are plain text; the event codec between core entries and domain events is not modelled.
- Liveness: timers, randomised timeouts and fairness; results are about safety, the outcome of one step or call, and undisturbed transfers.
- Membership: one fixed set of members with distinct ids, as the host checks when it opens.
- Cluster.Next: sender identity is taken from the message, as the replica enforces before it hands a message to the core.
- Host.RuntimeHost.Dispatch: exceptions, the directory lease, snapshots of the legacy format and the 64 MiB bound on a pinned snapshot are not modelled.
- HostRuns.HostNext: what the replica above a host does with snapshot work is one offered request at a time, numbered by the core; `Transfer.CoreAnswers` shows that the number does not matter to the follower. The replica's own election marker is a proposal like any other.
- Host.RuntimeHost.Persist: decoding and applying domain entries is one verdict per write, counted by `refuseAfter`.
- AdapterWrites.FileEngineAdapter.PersistDelta: injected faults are covered by the failing device; the full-plan variant of the write is not modelled.
- Adapter.Store.InstallSnapshot: one step here; that the journal makes it one step is what `JournalInstall.Survive` proves.
- Adapter.Store.Checkpoint: the fallback snapshot kept beside the newest one, and pruning, are not modelled.
- EntryLogs.Arena: reference counts appear as "somebody else refers to it"; thread safety of the counts is not modelled.
- JournalInstall.Directory: one directory; syncing its ancestors is a single outcome, and temporary files are invisible.
- WalLog.WriteAheadLog.Append: unsynced appends are not tracked after the next one; a crash is described after one operation.
- Wal.Scan: event text is an uninterpreted pair of functions that must parse back.
- Transfer.Link: one leader and one follower; frames of other leaders may arrive at any time, and the follower's core may do anything a core does between frames.
- Transfer.Link.Deliver: while frame numbers last, for payloads within the size limit, with a snapshot that verifies and a store that works.
- Adapter.AcceptedAdvances: for entries with a positive term, as decoding demands.
- Choreography.ApplyAgainst: filtered replay by tick or index is not modelled.
- ChoreographySnapshot.Restore: version 3 payloads only, as lines already split into fields; older formats and character-level parsing are not modelled.
- ChoreographyEngine.Engine.Reload: restoring together with retained event history is not modelled.
- The legacy replica, sockets, TLS, gRPC, command line, configuration and the .NET client.
- The bits of CRC-32 and FNV-1a.
