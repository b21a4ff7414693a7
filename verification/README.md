# Replication core: models and proofs

A Dafny model of the replication core of the two CRDT adapters and of the small stateful protocols around it,
with proofs about whole runs. Cryptography, CRDT engines, databases, sockets and timers are abstract: a key is
a number, a document a set of events or changes, a frame an opaque value, a clock a choice of the caller.

Asynchronous code is modelled at its `await` boundaries. What the code does between two awaits is one event, a
sequence of events is an arbitrary interleaving of callers, timers and continuations, and a result about a run
is proved by induction over all such sequences. Where the source updates fields in place, a class carries those
fields. Most of these classes have a `Model()`, and their methods are proved to do exactly what the event
function says, about which the results are then proved. `DurableLeave.Space`, `InboxAck.Client`,
`LoopGuard.FlagGuarded` and `Mediator.Rest` state what their methods do to their fields instead.

| module | what it models |
|---|---|
| `SecureRemoval` | two-phase removal of a member by several observers of one durable store |
| `MembershipKey`, `Membership`, `Text` | the grow-only event set, its winner rule, its projection and digest |
| `EncryptionKeys` | the cached projection and the recipients of key rotations, with interleaved invitations and removals |
| `PendingRotations` | early key rotations, their durable buffer and its drain |
| `DurableLeave` | leaving a space with a durable removed event, and its retries |
| `BlockedReplay` | the coalesced replay of entries parked until their key arrives |
| `SpaceCreation` | the creation flight and its lease on the adapter's session |
| `CatchUpController`, `CatchUpRegistry`, `PersonalLifecycle` | catch-up flights, their reports, start and destroy of the Personal-Doc sync |
| `LoopGuard` | which changes become log entries on a network of devices |
| `Mediator` | the store-and-forward double |
| `InboxAck` | recording and acknowledging inbox messages |
| `Bytes`, `ChangeFraming`, `Utf8`, `InviteSnapshot`, `DocId` | the binary formats and ids |
| `PersonalDoc` | plain values in Y.Maps, flattened notification state, the legacy rebuild |
| `Audit` | the paginated audit loop |

Several promises in comments and documentation turn out to hold only under a condition. Each is stated exactly,
with a concrete run or input for the other side:

- A record that is no event may lie under the key of a membership event. The writers take any record there for
  the event, so an invitation can cache the key of a removed DID, a removal can leave a member in
  (`EncryptionKeys`), and a commit can log a state without its removal and still drop the staging or clean up
  the space (`SecureRemoval`, `DurableLeave`).
- A removed DID can also re-enter the encryption-key cache by a re-invite whose guard read the document before
  its own rotation (`EncryptionKeys`).
- The re-invite to a known space imports keys without draining the rotations that wait for them, and a drain,
  be it of a delivery, of the invite or of the start-up, loses the only durable copy of an acknowledged rotation
  that waits behind a gap where its durable delete succeeds and writing it back fails (`PendingRotations`).
- A confirmed removal whose generation the live keys have overtaken can only be abandoned, and the restage
  branch behind a generation gap is unreachable (`SecureRemoval`).
- The durable commit does not look at a null append, so a leave without a content key cleans up unlogged, and
  an attempt that looked at the winner before another one wrote can write a second removed event
  (`DurableLeave`).
- A replay pass that throws, or a key lookup that loses a race, can leave an entry parked until the next call,
  and nothing else can (`BlockedReplay`).
- A space counts as provisioned without a log, without a coordinator, or with its first publication only
  deferred (`SpaceCreation`).
- A change that a document listener makes inside a remote apply is never logged under the flag guard, and cuts
  its author's later changes off from everybody else (`LoopGuard`).
- The re-offer on an opening misses a frame whose hash is not finished (`Mediator`).
- Deliveries of one inbox message that look at the history before either has recorded it process it twice
  (`InboxAck`).
- The text decoder swallows a leading byte order mark and replaces malformed bytes, so the snapshot codec
  round-trips only without them (`Utf8`, `InviteSnapshot`).
- Applying a plain object over a raw object replaces it instead of merging, and the legacy rebuild makes
  entries visible that were not Y.Maps (`PersonalDoc`).

`dafny verify dfyconfig.toml` checks the project.

## Model

| member | source | states |
|---|---|---|
| `SecureRemoval.RemovalIsSafe` | packages/wot-core/src/application/sync/secure-removal-workflow.ts:405-582 | over every interleaving of runs, retries, crashes and foreign rotations: a dropped removal has its event in the durable log unless a commit of it met a record that is no event, and its material is the key of its generation, at the broker and here, and was distributed; material is activated only where the broker holds it; no document and no log entry has a removal the broker had not enforced |
| `SecureRemoval.StagingOutlivesTheLog` | packages/wot-core/src/application/sync/secure-removal-workflow.ts:589-624 | in every reachable state a staging record disappears only by an explicit abandon or once its removal is logged or its commit met such a record, and a confirmed one gives way to another only where the broker has moved beyond it |
| `SecureRemoval.CommitCoversIffReadable` | packages/adapter-automerge/src/AutomergeReplicationAdapter.ts:2007-2060 | in every reachable state what a commit is about to log covers its removal, and the document shows it, if and only if the key of the event was free or held that event |
| `SecureRemoval.SpoiledKeyDropsUnlogged` | packages/adapter-automerge/src/AutomergeReplicationAdapter.ts:2020-2059 | a concrete run that drops a staged removal although no log entry has it |
| `SecureRemoval.GapNeverRestages` | packages/wot-core/src/application/sync/secure-removal-workflow.ts:762-790 | the restage branch behind a generation gap is unreachable: a gap always finds this device ahead of the broker |
| `SecureRemoval.OvertakenNeverCompletes` | packages/wot-core/src/application/sync/secure-removal-workflow.ts:405-582 | a confirmed, uncommitted staging that the live keys have overtaken is never completed by any further run |
| `SecureRemoval.RecoveryCompletes` | packages/wot-core/src/application/sync/secure-removal-workflow.ts:405-582 | a fresh recovery pass whose calls succeed completes a confirmed staging that is not overtaken, and its removal is then dropped |
| `SecureRemoval.CleanupResumes` | packages/wot-core/src/application/sync/secure-removal-workflow.ts:414-430 | a staging that is past its commit is cleaned up by a fresh pass |
| `SecureRemoval.CompletableUnlessOvertaken` | packages/wot-core/src/application/sync/secure-removal-workflow.ts:405-582 | a staging can be completed without an abandon if and only if it is not confirmed and uncommitted with the live keys beyond it (provided, for such a one, that no run has it in hand) |
| `SecureRemoval.LostSlotIsRestaged` | packages/wot-core/src/application/sync/secure-removal-workflow.ts:483-486 | from every reachable state: two succeeding turns of a run about to send replace the staging if and only if its slot is lost at the broker and a winner's key is here, and then by new material at the next generation |
| `SecureRemoval.StagingIdDecides` | packages/wot-core/src/application/sync/secure-removal-workflow.ts:636-646 | in every reachable state the staging id alone decides whether a run goes on to send, whether its confirmation counts, and, with the confirmation, whether it gets past the proof before the commit |
| `SecureRemoval.StagingIsShared` | packages/wot-core/src/application/sync/secure-removal-workflow.ts:373-396 | whoever stages while a record is there takes that one up |
| `SecureRemoval.UnconfirmedCompletes` | packages/wot-core/src/application/sync/secure-removal-workflow.ts:459-486 | no unconfirmed staging is stranded: where the local keys are level with the broker, succeeding runs of this device complete it or what replaces it; anywhere else they do once rotations of others have arrived |
| `SecureRemoval.OvertakenIsReachable` | packages/wot-core/src/application/sync/group-key-workflow.ts:253-326 | a concrete run that reaches such an overtaken staging: a crash between activation and logging, then another admin's rotation |
| `SecureRemoval.StepsKeepSound` | packages/adapter-automerge/src/AutomergeReplicationAdapter.ts:1559-1659 | the invariants of records, runs, documents and log behind these results are kept by every event |
| `MembershipKey.ParseOfFormat` | packages/wot-core/src/protocol/sync/membership-events.ts:42-76 | an event key is read back as the event it was written for, whatever colons the DID has |
| `MembershipKey.FormatOfParse` | packages/wot-core/src/protocol/sync/membership-events.ts:53-76 | only canonical keys are accepted: what parses is written back identically |
| `MembershipKey.FormatIsInjective` | packages/wot-core/src/protocol/sync/membership-events.ts:42-47 | distinct events have distinct keys |
| `Membership.ResolveMembershipWinner` | packages/wot-core/src/protocol/sync/membership-events.ts:110-119 | the scan finds the one unbeaten event of the DID, and with it whether the DID is active or removed in the sense of the reference definition |
| `Membership.ResolveActiveMembers` | packages/wot-core/src/protocol/sync/membership-events.ts:88-101 | the members are the active DIDs, sorted |
| `Membership.NextWinner` | packages/wot-core/src/protocol/sync/membership-events.ts:90-95 | the winners-so-far table stays the table of unbeaten events |
| `Membership.MembersIgnoreMergeOrder` | packages/wot-core/src/protocol/sync/membership-events.ts:88-101 | order and repetition of merged events do not matter |
| `Membership.ActivationAdmits` | packages/adapter-automerge/src/AutomergeReplicationAdapter.ts:1305-1337 | an activation admits if and only if it is above every removal, or the DID was active anyway |
| `Membership.RemovalExcludes` | packages/adapter-automerge/src/AutomergeReplicationAdapter.ts:1478-1488 | a removal excludes if and only if no valid activation is above it; at the next generation it beats all events up to that generation |
| `Membership.OthersAreUntouched` | packages/wot-core/src/protocol/sync/membership-events.ts:110-119 | events about one DID never touch another |
| `Membership.RaiseAboveRemovals` | packages/adapter-automerge/src/AutomergeReplicationAdapter.ts:1311-1318 | the re-invite loop ends, at the first generation above every removal when nobody else rotates, and never rotates more than needed |
| `Membership.ResolveActiveAdmins` | packages/wot-core/src/protocol/sync/admin-set.ts:51-58 | the admin entries that are active members, sorted |
| `Membership.SpaceAdminDids` | packages/adapter-automerge/src/AutomergeReplicationAdapter.ts:1850-1865 | admins are members, and exist where members do; without entries the creator if a member, the first member where no creator is known, the least member otherwise |
| `Membership.ReadsWhatIsFiled` | packages/adapter-automerge/src/AutomergeReplicationAdapter.ts:1901-1921 | an event counts if and only if it is filed under its own key |
| `Membership.WriteOnlyAdds` | packages/adapter-automerge/src/AutomergeReplicationAdapter.ts:1980-1990 | a write loses nothing, adds nothing else, and shows if and only if its key was free or held that event |
| `Membership.EqualDigestsProjectEqually` | packages/adapter-automerge/src/AutomergeReplicationAdapter.ts:2113-2145 | two documents have equal digests if and only if they agree on creator, events and admins |
| `Text.SortedOfIsInjective` | packages/adapter-automerge/src/AutomergeReplicationAdapter.ts:2123-2127 | sorted lists are equal if and only if the sets behind them are |
| `EncryptionKeys.InfoAgreesWithDocument` | packages/adapter-automerge/src/AutomergeReplicationAdapter.ts:2113-2203 | in every state reached after an attach the cached members, admins and creator are the projection of the document, although equal digests are skipped |
| `EncryptionKeys.CleanUnlessUnwritten` | packages/adapter-automerge/src/AutomergeReplicationAdapter.ts:1316-1337 | a cache without removed DIDs stays so under a step if and only if the step is no invitation that passes its guard for a DID the document says is removed while its activation has no key or an occupied one |
| `EncryptionKeys.RotationsAvoidTheRemoved` | packages/adapter-automerge/src/AutomergeReplicationAdapter.ts:1808-1834 | over every run without such an invitation the cache stays clean and no rotation is sent to a DID that is removed in the document |
| `EncryptionKeys.RotationReachesTheCache` | packages/adapter-automerge/src/AutomergeReplicationAdapter.ts:1808-1834 | whatever interleaves: once an operation has begun to send a rotation, a delivery it tries goes out if and only if its DID is in the cache and has not been sent the rotation of this generation since, so nobody is sent it twice; the sending is over if and only if every DID in the cache by then has been sent it, and an invitation then looks at its guard again |
| `EncryptionKeys.DeliveriesComeFromTheCache` | packages/adapter-automerge/src/AutomergeReplicationAdapter.ts:1811-1833 | a delivery is made by an operation that is sending, in its generation, to a DID from the cache |
| `EncryptionKeys.RotationIsNew` | packages/adapter-automerge/src/AutomergeReplicationAdapter.ts:1793-1801 | in every run a rotation that begins to be sent is of the generation read after rotating, above the one read before, or that of the commit |
| `EncryptionKeys.PhasesOfAnOperation` | packages/adapter-automerge/src/AutomergeReplicationAdapter.ts:1789-1801 | an invitation or removal reads the generation before it acts, rotates by exactly one and sends the generation it then reads; the commit of a removal begins at its event |
| `EncryptionKeys.RemovedGetsNoRotation` | packages/adapter-automerge/src/AutomergeReplicationAdapter.ts:1477-1496 | whoever is removed gets no rotation from the beginning of the removal on, unless invited again or restored, whether or not the removal is ever written |
| `EncryptionKeys.AnyDocumentChangeHeals` | packages/adapter-automerge/src/AutomergeReplicationAdapter.ts:2195-2212 | whatever the cache held, any change of what the document shows leaves it clean |
| `EncryptionKeys.FirstGuardIsCurrent` | packages/adapter-automerge/src/AutomergeReplicationAdapter.ts:1311-1318 | an invitation that did not rotate can spoil the cache if and only if the DID is removed and the key of its activation holds something that is not that activation |
| `EncryptionKeys.InvitationAdmits` | packages/adapter-automerge/src/AutomergeReplicationAdapter.ts:1316-1337 | after an invitation the DID is active if and only if the document takes its activation and that is above every removal, or it was active; and its key is cached if and only if it is not removed or the invitation was an unwritten one |
| `EncryptionKeys.RemovalRemoves` | packages/adapter-automerge/src/AutomergeReplicationAdapter.ts:1478-1488 | a removal, or the commit of one, goes on if and only if its event has a key; the DID is out if and only if the document takes the event or it was out anyway; and its key leaves the cache where the document shows something new |
| `EncryptionKeys.GuardIsAboveRemovals` | packages/adapter-automerge/src/AutomergeReplicationAdapter.ts:1249-1256 | the re-invite guard rotates if and only if the current generation is not above every removal of the DID |
| `EncryptionKeys.RestartIsClean` | packages/adapter-automerge/src/AutomergeReplicationAdapter.ts:2183-2197 | a restart agrees with the document, keeps exactly the persisted keys of those who are not removed, and what was persisted where the document shows no event |
| `EncryptionKeys.WithoutEventsTheListStays` | packages/adapter-automerge/src/AutomergeReplicationAdapter.ts:2147-2175 | a document without events leaves the cached members and admins as they are |
| `EncryptionKeys.SameViewIsSkipped` | packages/adapter-automerge/src/AutomergeReplicationAdapter.ts:2199-2204 | what shows the same is skipped: nothing is projected and nothing pruned |
| `EncryptionKeys.PromotionShows` | packages/adapter-automerge/src/AutomergeReplicationAdapter.ts:1743-1779 | a promotion is in the document, and in the cached admins if and only if its DID is a member |
| `EncryptionKeys.StaleReInviteIsReachable` | packages/adapter-automerge/src/AutomergeReplicationAdapter.ts:1316-1337 | a concrete run in which a removed DID ends up in the cache |
| `EncryptionKeys.OccupiedKeySpoilsTheCache` | packages/adapter-automerge/src/AutomergeReplicationAdapter.ts:1984 | a concrete run in which an invitation without any rotation caches the key of a removed DID, because its activation's key is occupied |
| `EncryptionKeys.OccupiedKeyKeepsTheMember` | packages/adapter-automerge/src/AutomergeReplicationAdapter.ts:1984 | for every DID a state in which a removal leaves an active member in, because its key is occupied |
| `EncryptionKeys.WriteShows` | packages/adapter-automerge/src/AutomergeReplicationAdapter.ts:1980-1990 | after a write the readable events are those before, with the new one if and only if its key was free or held it |
| `EncryptionKeys.ReadMembershipEvents` | packages/adapter-automerge/src/AutomergeReplicationAdapter.ts:1901-1921 | the reading loop returns exactly the events filed under their own keys |
| `EncryptionKeys.Space.Prune` | packages/adapter-automerge/src/AutomergeReplicationAdapter.ts:1933-1939 | the pruning loop removes exactly the DIDs with a removed winner |
| `EncryptionKeys.Space.SeedMembershipProjection` | packages/adapter-automerge/src/AutomergeReplicationAdapter.ts:2183-2193 | the seed projects and prunes unconditionally |
| `EncryptionKeys.Space.OnDocMembershipChanged` | packages/adapter-automerge/src/AutomergeReplicationAdapter.ts:2195-2212 | the observer does nothing on an equal digest, and otherwise projects and, given events, prunes |
| `EncryptionKeys.Space.InviteTurn` | packages/adapter-automerge/src/AutomergeReplicationAdapter.ts:1311-1337 | one turn of an invitation: rotate again, or cache the key and write the activation where its key is free |
| `PendingRotations.RotationsConverge` | packages/adapter-automerge/src/AutomergeReplicationAdapter.ts:2653-2720 | rotations in any order, with duplicates, gaps and restarts, before and after the invite: the state is always settled, and memory and durable buffer agree |
| `PendingRotations.HistoryIsWhatHappened` | packages/adapter-automerge/src/AutomergeReplicationAdapter.ts:3650-3756 | over every run exactly the delivered messages have arrived, and exactly those are acknowledged that, at one of their deliveries, did not have to wait or whose durable write succeeded |
| `PendingRotations.SettledIsLongestContiguous` | packages/adapter-automerge/src/AutomergeReplicationAdapter.ts:3650-3756 | settled means: the local generation is the longest contiguous one, and exactly the rotations beyond the first gap are buffered |
| `PendingRotations.DrainSettles` | packages/adapter-automerge/src/AutomergeReplicationAdapter.ts:2767-2799 | a pass handles every buffered message exactly once, adds only keys of genuine rotations in their own generation, and leaves exactly what lies beyond the gap |
| `PendingRotations.OrderedIsAnOrdering` | packages/adapter-automerge/src/AutomergeReplicationAdapter.ts:2777-2787 | a pass takes exactly the buffered messages, each once, in ascending generations |
| `PendingRotations.OrderIsStable` | packages/adapter-automerge/src/AutomergeReplicationAdapter.ts:2773-2787 | the order is by generation and then by reason, and stable |
| `PendingRotations.ApplyKeeps` | packages/adapter-automerge/src/AutomergeReplicationAdapter.ts:3749-3756 | a rotation that applies settles any consistent state |
| `PendingRotations.ReInviteSettlesIffNothingIsInReach` | packages/adapter-automerge/src/AutomergeReplicationAdapter.ts:3493-3521 | a re-invite to a known space, which imports keys without draining, leaves a settled state if and only if every buffered generation is above the number of keys there are then, or there are none |
| `PendingRotations.ReInviteCanStrand` | packages/adapter-automerge/src/AutomergeReplicationAdapter.ts:3493-3521 | a concrete re-invite that strands a buffered rotation |
| `PendingRotations.NextApplicationSettles` | packages/adapter-automerge/src/AutomergeReplicationAdapter.ts:3756 | the next rotation that applies makes up for it |
| `PendingRotations.RunsKeepUnlessLost` | packages/adapter-automerge/src/AutomergeReplicationAdapter.ts:2653-2799 | over every run, with any failing durable writes and deletes, re-invites and restarts: every acknowledged rotation is throughout covered by the local keys or waiting in memory and on disk, if and only if no drain of the run loses one |
| `PendingRotations.KeptUnlessLost` | packages/adapter-automerge/src/AutomergeReplicationAdapter.ts:2788-2799 | the same for each step from any such state: a delivery that applies, the invite and a restart lose an acknowledged rotation if and only if one that waits behind a gap at the start of their drain has a succeeding delete and a failing write; nothing else loses one |
| `PendingRotations.KeptWhereSettled` | packages/adapter-automerge/src/AutomergeReplicationAdapter.ts:2660-2674 | in a settled state, kept means that every acknowledged pending rotation is on disk |
| `PendingRotations.StaysBehindTheGap` | packages/adapter-automerge/src/AutomergeReplicationAdapter.ts:2767-2799 | a pass leaves a buffered rotation if and only if it is genuine and there is no key, or some generation on the way to it is that of no genuine buffered one |
| `PendingRotations.FailedWriteLosesAnAcknowledgedRotation` | packages/adapter-automerge/src/AutomergeReplicationAdapter.ts:2793-2794 | a concrete run that loses an acknowledged rotation that way |
| `PendingRotations.FailedWriteAtTheInviteLosesIt` | packages/adapter-automerge/src/AutomergeReplicationAdapter.ts:3633 | a concrete run in which the invite's own drain loses one |
| `PendingRotations.Rotations.BufferPendingSpaceMessage` | packages/adapter-automerge/src/AutomergeReplicationAdapter.ts:2653-2674 | memory is updated first; the result says whether the durable write succeeded |
| `PendingRotations.Rotations.DeletePendingSpaceMessage` | packages/adapter-automerge/src/AutomergeReplicationAdapter.ts:2695-2710 | the message leaves memory, and the disk where the delete succeeds |
| `PendingRotations.Rotations.HandleKeyRotation` | packages/adapter-automerge/src/AutomergeReplicationAdapter.ts:3650-3756 | one rotation, for an unknown space too, with the recursion into a pass; terminates, and says whether to acknowledge |
| `PendingRotations.Rotations.ProcessPendingForSpace` | packages/adapter-automerge/src/AutomergeReplicationAdapter.ts:2767-2799 | one pass, with the recursion into the handler cut off by the flag; terminates |
| `DurableLeave.LeavesAreLogged` | packages/adapter-automerge/src/AutomergeReplicationAdapter.ts:2439-2501 | over every run with failing presentations, failing appends, crashes, merges and rotations: an attempt that reached the cleanup has its removal in the durable log, unless its append was skipped for want of a content key or its commit met a record that is no event |
| `DurableLeave.CommitCoversIffReadable` | packages/adapter-automerge/src/AutomergeReplicationAdapter.ts:2007-2046 | in every reachable state what a commit is about to log covers its removal if and only if the event's key was free or held that event |
| `DurableLeave.AppendLogsIffKeyed` | packages/adapter-automerge/src/AutomergeReplicationAdapter.ts:2059 | the unchecked append logs the removal if and only if the update has it and the content key is at hand, and the attempt goes on either way |
| `DurableLeave.LeavesUnlessAdmin` | packages/adapter-automerge/src/AutomergeReplicationAdapter.ts:2439-2501 | an undisturbed attempt with the content key leaves if and only if the member is no admin or is removed already, at the winning or else the next generation, with its removal in the log unless its key held junk |
| `DurableLeave.AdminsWriteNothing` | packages/adapter-automerge/src/AutomergeReplicationAdapter.ts:2459-2468 | over every run an admin never writes its own removal |
| `DurableLeave.KeylessIsAbandoned` | packages/adapter-automerge/src/AutomergeReplicationAdapter.ts:2440-2445 | without keys the space is abandoned locally at once, with nothing written or logged |
| `DurableLeave.KeylessLeaveLeavesNoTrace` | packages/adapter-automerge/src/AutomergeReplicationAdapter.ts:2059 | a concrete leave that cleans up without a trace in the log |
| `DurableLeave.SpoiledLeaveLogsWithoutItsRemoval` | packages/adapter-automerge/src/AutomergeReplicationAdapter.ts:2020-2046 | a concrete leave that cleans up with the key at hand and a log entry that lacks its removal |
| `DurableLeave.OneLeaveOneEvent` | packages/adapter-automerge/src/AutomergeReplicationAdapter.ts:2469-2487 | however often a leave is repeated, one attempt at a time, it writes at most one removed event |
| `DurableLeave.OneEventUnlessLookedPast` | packages/adapter-automerge/src/AutomergeReplicationAdapter.ts:2469-2487 | attempts that overlap as they like write at most one removed event if and only if no commit looked past the first one |
| `DurableLeave.WritesAgainIffItLookedPast` | packages/adapter-automerge/src/AutomergeReplicationAdapter.ts:2469-2487 | a step writes a further event if and only if it is the commit of an attempt that looked at the winner before anything was written, read its generation with a rotation between it and every attempt that wrote, and finds its key free of anything else |
| `DurableLeave.OverlappingLeavesWriteTwoEvents` | packages/adapter-automerge/src/AutomergeReplicationAdapter.ts:2469-2481 | a concrete run of two such attempts |
| `DurableLeave.Space.CommitDurable` | packages/adapter-automerge/src/AutomergeReplicationAdapter.ts:2007-2060 | the commit applies the event once, logs the whole state where its key was taken, and where it succeeds with a content key the removal is logged if and only if its key held nothing else |
| `DurableLeave.Space.Leave` | packages/adapter-automerge/src/AutomergeReplicationAdapter.ts:2439-2501 | with a content key an attempt cleans up only behind a logged removal, unless that removal's key held something else; one that throws leaves the space in place, and a repetition adds no event |
| `BlockedReplay.EveryCallIsCovered` | packages/adapter-automerge/src/AutomergeReplicationAdapter.ts:2742-2765 | at most one pass is live, a mark needs a live pass, every call is covered by a later snapshot or a mark, and passes never outnumber calls, also when passes throw |
| `BlockedReplay.QuiescenceIsCovered` | packages/adapter-automerge/src/AutomergeReplicationAdapter.ts:2742-2765 | with no pass under way the newest snapshot was taken at or after the last call |
| `BlockedReplay.PassesEnd` | packages/adapter-automerge/src/AutomergeReplicationAdapter.ts:2742-2765 | from every reachable state the passes under way and the one the marks ask for come to their end by their own turns |
| `BlockedReplay.NothingReplayableStaysParked` | packages/wot-core/src/protocol/sync/log-sync-coordinator.ts:1345-1360 | an entry whose key is there at a call is no longer parked once no pass is under way |
| `BlockedReplay.ParkedOfOneStep` | packages/wot-core/src/protocol/sync/log-sync-coordinator.ts:1206-1285 | an entry is parked if and only if a lookup of it missed its key or its decryption failed, and it has not been applied since |
| `BlockedReplay.OnlyKeysUnpark` | packages/wot-core/src/protocol/sync/log-sync-coordinator.ts:1345-1360 | over every run a parked entry leaves only by a cleanup of the space, or by being applied with its key |
| `BlockedReplay.ParkedAtRestIff` | packages/adapter-automerge/src/AutomergeReplicationAdapter.ts:2742-2765 | with no pass under way, an entry whose key was there at the newest snapshot is parked if and only if a missed lookup parked it since, or the last pass ended before it came to it |
| `BlockedReplay.OnlyUnmarkedThrowsCutOff` | packages/adapter-automerge/src/AutomergeReplicationAdapter.ts:2753-2764 | a pass is cut off from parked entries if and only if it throws unmarked with some of them still ahead |
| `BlockedReplay.ThrowStrandsUnlessMarked` | packages/adapter-automerge/src/AutomergeReplicationAdapter.ts:2753-2764 | a throw leaves a parked replayable entry without a pass ahead if and only if nobody called during that pass |
| `BlockedReplay.LateParkingIsMissed` | packages/wot-core/src/protocol/sync/log-sync-coordinator.ts:1206-1285 | a concrete run in which a lookup that missed its key parks the entry after the call for that key |
| `BlockedReplay.ThrowStrands` | packages/adapter-automerge/src/AutomergeReplicationAdapter.ts:2753-2764 | a concrete run in which a throw leaves an entry parked |
| `BlockedReplay.CleanUpIsSoundIffIdle` | packages/adapter-automerge/src/AutomergeReplicationAdapter.ts:2557-2560 | the local cleanup keeps the single-flight invariant if and only if no pass is running |
| `BlockedReplay.Replay.ReplayBlockedByKeyForSpace` | packages/adapter-automerge/src/AutomergeReplicationAdapter.ts:2742-2753 | a call starts a pass, or marks, or does nothing |
| `BlockedReplay.Replay.AfterPass` | packages/adapter-automerge/src/AutomergeReplicationAdapter.ts:2756-2764 | the end of a pass releases the flag and serves the marks with one more pass |
| `SpaceCreation.EffectsStayInTheirSession` | packages/adapter-automerge/src/AutomergeReplicationAdapter.ts:1022-1200 | no flight starts an effect outside its own session, what is installed was installed in the current session, and a provisioned space had all phases run by a flight of the current session |
| `SpaceCreation.StaleFlightsAreHarmless` | packages/adapter-automerge/src/AutomergeReplicationAdapter.ts:1022-1200 | a flight that outlived its session changes nothing but its own program counter |
| `SpaceCreation.CallersShareOneFlight` | packages/adapter-automerge/src/AutomergeReplicationAdapter.ts:998-1010 | the unsettled private-space flight of the session is the one callers share, and no other flight's settling clears it |
| `SpaceCreation.ProvisionedIsPublishedIff` | packages/adapter-automerge/src/AutomergeReplicationAdapter.ts:1152-1199 | in every reachable state a marked space was marked by a flight of the current session, and any such flight called for the publication if and only if there is a log and a coordinator was there, published it if and only if that call was not merely deferred, and seeded the log if and only if it found it empty |
| `SpaceCreation.UndisturbedFlightsFinish` | packages/adapter-automerge/src/AutomergeReplicationAdapter.ts:1022-1200 | from every reachable state a flight of the current session whose calls succeed ends within nine of its turns, with its space marked |
| `SpaceCreation.EffectsArePhases` | packages/adapter-automerge/src/AutomergeReplicationAdapter.ts:1100-1184 | in every reachable state the recorded effects of a flight are exactly the phases it ran, but that a coordinator may have been there |
| `SpaceCreation.EntriesOfOneStep` | packages/adapter-automerge/src/AutomergeReplicationAdapter.ts:1053-1137 | a space is there if and only if a flight that had not found it, or a restore, entered it, and a coordinator if and only if one was installed, with neither a forget nor a stop since |
| `SpaceCreation.MarksOfOneStep` | packages/adapter-automerge/src/AutomergeReplicationAdapter.ts:1138-1199 | a space is marked if and only if a flight for it finished, with neither another entry nor a stop since |
| `SpaceCreation.LaunchesOfOneStep` | packages/adapter-automerge/src/AutomergeReplicationAdapter.ts:974-1010 | flights start by a call alone, the private one only where none is under way, and end settled |
| `SpaceCreation.EarlyReturnIffMarked` | packages/adapter-automerge/src/AutomergeReplicationAdapter.ts:1012-1020 | opening the private space ends at once, without a phase or an effect, if and only if the space is there and marked |
| `SpaceCreation.ProvisionedWithoutPublication` | packages/adapter-automerge/src/AutomergeReplicationAdapter.ts:1164-1198 | a concrete run in which the private space is marked although its publication was only deferred, and the next call for it does nothing |
| `SpaceCreation.Adapter.Stop` | packages/adapter-automerge/src/AutomergeReplicationAdapter.ts:910-917 | stop clears the session state and ends every lease |
| `SpaceCreation.Adapter.OpenOrCreateDeterministicPrivateSpace` | packages/adapter-automerge/src/AutomergeReplicationAdapter.ts:998-1010 | a second caller gets the running flight |
| `SpaceCreation.Adapter.AfterGenesis` | packages/adapter-automerge/src/AutomergeReplicationAdapter.ts:1012-1053 | behind the derivation: return early for a marked space, or look for the space and call for its keys |
| `SpaceCreation.Adapter.AfterKeys` | packages/adapter-automerge/src/AutomergeReplicationAdapter.ts:1100-1146 | behind the lease: insert unless the look before the call for the keys found the space, unmark, go on to the metadata |
| `SpaceCreation.Adapter.AfterStore` | packages/adapter-automerge/src/AutomergeReplicationAdapter.ts:3106-3151 | take the coordinator that was there at the call, or go without, or behind the lease install a new one over any that came in meanwhile |
| `SpaceCreation.Adapter.AfterSeed` | packages/adapter-automerge/src/AutomergeReplicationAdapter.ts:1184-1199 | behind the lease: mark the space provisioned |
| `CatchUpController.SingleBoundedFlight` | packages/adapter-yjs/src/InitialCatchUpController.ts:60-144 | at most one flight is live, a flight makes at most as many attempts as the backoff list is long, and an idle controller remembers nothing |
| `CatchUpController.RequestCatchesUp` | packages/adapter-yjs/src/InitialCatchUpController.ts:60-72 | a request to an idle controller resets for a reconnect and calls for a catch-up if and only if the transport is ready |
| `CatchUpController.FailingFlightsUseTheirBudget` | packages/adapter-yjs/src/InitialCatchUpController.ts:104-133 | over every run in which the transport stays ready and every attempt fails, an ended flight has called for a catch-up exactly as often as the backoff list is long; the calls of any run are those its flights count |
| `CatchUpController.CatchUpIsCalledWhenDue` | packages/adapter-yjs/src/InitialCatchUpController.ts:104-133 | a catch-up is called if and only if a request finds the controller idle, a backoff is over, or a flight ends behind a remembered reconnect, with the transport ready |
| `CatchUpController.BacksOffAfterFailures` | packages/adapter-yjs/src/InitialCatchUpController.ts:104-149 | a flight starts to back off if and only if an attempt failed with attempts left and the transport ready |
| `CatchUpController.FailuresAreReported` | packages/adapter-yjs/src/InitialCatchUpController.ts:129-131 | exactly rejected catch-ups and failed resends are reported |
| `CatchUpController.DisposeIsTerminal` | packages/adapter-yjs/src/InitialCatchUpController.ts:80-88 | after dispose no flight starts and nothing is called but, at most once, the error report of the attempt in the air |
| `CatchUpController.ResetsNeedReconnects` | packages/adapter-yjs/src/InitialCatchUpController.ts:60-72 | resets never outnumber reconnect requests |
| `CatchUpController.ReconnectsAreRemembered` | packages/adapter-yjs/src/InitialCatchUpController.ts:60-65 | while a flight lives reconnects only accumulate in the flag |
| `CatchUpController.ReconnectDrainsOnce` | packages/adapter-yjs/src/InitialCatchUpController.ts:90-101 | reconnects during a flight cause exactly one further reset and flight if the transport is ready at the end, none otherwise |
| `CatchUpController.ResendFollowsCompleteCatchUp` | packages/adapter-yjs/src/InitialCatchUpController.ts:113-124 | pending writes are resent if and only if a live flight's catch-up came back complete |
| `CatchUpController.FlightsEnd` | packages/adapter-yjs/src/InitialCatchUpController.ts:104-144 | every turn of a flight uses up fuel that nothing gives back |
| `CatchUpController.Controller.Request` | packages/adapter-yjs/src/InitialCatchUpController.ts:60-72 | a request starts a flight, or is remembered, or is ignored |
| `CatchUpController.Controller.Dispose` | packages/adapter-yjs/src/InitialCatchUpController.ts:80-88 | dispose releases a waiting backoff and forgets the reconnect |
| `CatchUpController.Controller.AfterCatchUp` | packages/adapter-yjs/src/InitialCatchUpController.ts:111-128 | success, timeout, other incompleteness and failure of one attempt |
| `CatchUpController.Controller.AfterFlight` | packages/adapter-yjs/src/InitialCatchUpController.ts:90-101 | the settling of a flight |
| `CatchUpRegistry.OwnersMatchHistory` | packages/adapter-yjs/src/CatchUpRegistry.ts:47-61 | the owner map says exactly which source was opened last and not ended since |
| `CatchUpRegistry.EntryIsTheLastWord` | packages/adapter-yjs/src/CatchUpRegistry.ts:47-96 | the entry of a document is what the last operation with a say about it said, where a source has a say only while it owns its document |
| `CatchUpRegistry.UnheardSourcesAreSilent` | packages/adapter-yjs/src/CatchUpRegistry.ts:51-59 | a source that is no owner changes nothing |
| `CatchUpRegistry.SilencedForever` | packages/adapter-yjs/src/CatchUpRegistry.ts:47-49 | a source once silenced is never heard again, because tokens do not recur |
| `CatchUpRegistry.OverviewIsOutstanding` | packages/adapter-yjs/src/CatchUpRegistry.ts:107-117 | the published overview is the current table, one entry a document, all outstanding |
| `CatchUpRegistry.PublishesWhatChanges` | packages/adapter-yjs/src/CatchUpRegistry.ts:66-117 | listeners are told once where the overview changes, and besides if and only if a document that is not in it reports that nothing is outstanding |
| `CatchUpRegistry.PutKeepsTheOrder` | packages/adapter-yjs/src/CatchUpRegistry.ts:75-77 | a document keeps its place as long as it is there, and a new one comes last |
| `CatchUpRegistry.RemoveTakesOne` | packages/adapter-yjs/src/CatchUpRegistry.ts:77 | the others keep their places when one goes |
| `CatchUpRegistry.HandoverKeepsTheEntry` | packages/adapter-yjs/src/CatchUpRegistry.ts:47-49 | taking a document over leaves its entry as it was until somebody with a say speaks |
| `CatchUpRegistry.CatchUpTable.OpenSource` | packages/adapter-yjs/src/CatchUpRegistry.ts:47-49 | a new source owns its document with a token never used before |
| `CatchUpRegistry.CatchUpTable.UpdateState` | packages/adapter-yjs/src/CatchUpRegistry.ts:67-79 | an unchanged state is skipped, an outstanding one stored, another removed |
| `CatchUpRegistry.CatchUpTable.ReleaseSource` | packages/adapter-yjs/src/CatchUpRegistry.ts:55-59 | only the owner's release forgets the entry |
| `CatchUpRegistry.CatchUpTable.ClearAll` | packages/adapter-yjs/src/CatchUpRegistry.ts:88-95 | clear ends every ownership and every entry |
| `PersonalLifecycle.OneLiveListenerSet` | packages/adapter-yjs/src/YjsPersonalLogSyncAdapter.ts:254-348 | in any interleaving at most one set of listeners and one catch-up subscription is attached, exactly if the current lifecycle's init has finished; one build at a time, one assignment of the coordinator |
| `PersonalLifecycle.NothingLivesAfterDestroy` | packages/adapter-yjs/src/YjsPersonalLogSyncAdapter.ts:328-348 | after a destroy nothing is attached before the next start |
| `PersonalLifecycle.RestartSucceeds` | packages/adapter-yjs/src/YjsPersonalLogSyncAdapter.ts:126-139 | a failed build does not poison later ones: a restart whose store init succeeds attaches its listeners, and builds anew exactly if there is no coordinator |
| `PersonalLifecycle.FailedBuildStrandsItsLifecycle` | packages/adapter-yjs/src/YjsPersonalLogSyncAdapter.ts:254-264 | in every reachable state of a started adapter, some continuation without a destroy attaches listeners if and only if the build its current init waits for has not failed; the current init, once resumed, is dropped if and only if it has, and another start does nothing |
| `PersonalLifecycle.InitsOfOneStep` | packages/adapter-yjs/src/YjsPersonalLogSyncAdapter.ts:254-272 | an init attaches if and only if it resumes in the lifecycle that started it behind a build that did not fail; whatever else resumes is dropped |
| `PersonalLifecycle.BuildsOfOneStep` | packages/adapter-yjs/src/YjsPersonalLogSyncAdapter.ts:126-172 | a build ends as its store init did, a failed one is forgotten once its rejection was caught, and the coordinator is the build that made it |
| `PersonalLifecycle.LifecyclesOfOneStep` | packages/adapter-yjs/src/YjsPersonalLogSyncAdapter.ts:254-262 | a start of an adapter that is not started launches one init, behind the coordinator, the build under way or a new one; a destroy ends the epoch |
| `PersonalLifecycle.EpochCheckIsNeeded` | packages/adapter-automerge/src/AutomergePersonalLogSyncAdapter.ts:217-219 | in this adapter, a check of `started` alone, as the Automerge sibling has it, would differ if and only if an older lifecycle resumes in a started adapter, and then listeners outlive the next destroy |
| `PersonalLifecycle.LogSync.EnsureCoordinator` | packages/adapter-yjs/src/YjsPersonalLogSyncAdapter.ts:126-139 | an existing coordinator, the build in flight, or a new build |
| `PersonalLifecycle.LogSync.AfterCoordinator` | packages/adapter-yjs/src/YjsPersonalLogSyncAdapter.ts:263-272 | only the current lifecycle's continuation attaches anything |
| `PersonalLifecycle.LogSync.End` | packages/adapter-yjs/src/YjsPersonalLogSyncAdapter.ts:328-348 | destroy detaches what the fields hold and ends the epoch |
| `LoopGuard.EntriesAreLocalEdits` | packages/adapter-automerge/src/AutomergePersonalLogSyncAdapter.ts:227-263 | however entries are delivered, the log has one entry per local change outside an apply and per rewrite, plus those inside under the origin guard, and flags are down between calls, also after a throw |
| `LoopGuard.SameEntriesSameDocument` | packages/adapter-automerge/src/AutomergeReplicationAdapter.ts:3024-3052 | devices that know the same entries hold the same document if and only if neither made a change that no entry carries |
| `LoopGuard.OriginGuardConverges` | packages/adapter-yjs/src/YjsPersonalLogSyncAdapter.ts:273-292 | under the origin guard that is always so |
| `LoopGuard.DocumentsFollowTheDeliveries` | packages/adapter-automerge/src/AutomergePersonalLogSyncAdapter.ts:321-336 | at the end of any run a device shows exactly the changes of the entries delivered to it without a throw, and those it made itself |
| `LoopGuard.OnlyNestedChangesAreUnlogged` | packages/adapter-automerge/src/AutomergePersonalLogSyncAdapter.ts:228-229 | what a step leaves unlogged is exactly what listeners make inside its apply under the flag, and nothing under the origin guard |
| `LoopGuard.NestedChangesAreUnlogged` | packages/adapter-automerge/src/AutomergePersonalLogSyncAdapter.ts:321-336 | under the flag an apply loses every change made inside it and no other: exactly the next `nested` changes of the device |
| `LoopGuard.UnloggedCutsTheAuthorOff` | packages/adapter-automerge/src/AutomergeReplicationAdapter.ts:3024-3052 | nobody else sees an unlogged change, nor anything its author makes after it |
| `LoopGuard.RewriteRepairs` | packages/adapter-automerge/src/AutomergePersonalLogSyncAdapter.ts:180-196 | a full-state rewrite by the author repairs it |
| `LoopGuard.FlagGuarded.ChangeHandler` | packages/adapter-automerge/src/AutomergePersonalLogSyncAdapter.ts:227-250 | the observer writes exactly the changes made while the flag is down |
| `LoopGuard.FlagGuarded.ApplyRemoteUpdate` | packages/adapter-automerge/src/AutomergePersonalLogSyncAdapter.ts:321-336 | the flag is down again after an apply, also after a throw; nested changes are made and not written |
| `Mediator.SendsAreConserved` | apps/wot-v3/harness/mediator-double.ts:239-308 | in every reachable state each send is accounted for once, and every client's current socket is its own and open |
| `Mediator.CountsOfOneStep` | apps/wot-v3/harness/mediator-double.ts:269-301 | each counter counts what its name says |
| `Mediator.SwitchesOfOneStep` | apps/wot-v3/harness/mediator-double.ts:272-298 | the switches stay as set, but the two for the next frame alone are spent by it |
| `Mediator.HeldUntilAcked` | apps/wot-v3/harness/mediator-double.ts:209-221 | an accepted frame is held, or being hashed to be held, until the client acked it |
| `Mediator.FramesGoWhereTheyWereSent` | apps/wot-v3/harness/mediator-double.ts:209-301 | over every run a frame is accepted for exactly the clients it was delivered to, sent to unrefused on an open socket, or routed to and carried, and put on exactly their sockets and those of re-offers and repetitions |
| `Mediator.HeldInOneStep` | apps/wot-v3/harness/mediator-double.ts:209-221 | a frame is held from the end of its hash until a re-offer that knows its ack |
| `Mediator.AcksAreForever` | apps/wot-v3/harness/mediator-double.ts:379-383 | no rotation of the mediator's key and nothing else takes an ack back |
| `Mediator.AcksComeFromTexts` | apps/wot-v3/harness/mediator-double.ts:269-284 | over every run exactly the texts that arrived on open sockets are read, with exactly the keys there have been |
| `Mediator.SocketsOfOneStep` | apps/wot-v3/harness/mediator-double.ts:239-308 | an accepted connection is the client's current socket until it closes or the next one comes, and no other socket closes |
| `Mediator.RestMeansOffered` | apps/wot-v3/harness/mediator-double.ts:325-337 | at rest every unacked frame is held and was put on the client's current socket, unless its hash was unfinished when that socket's re-offer went through |
| `Mediator.SettledMeansOffered` | apps/wot-v3/harness/mediator-double.ts:166-180 | over every run of the double and those who wait for it: settled goes on only with no job unfinished and every unacked frame offered so; each caller sleeps, is woken or went on; and they are woken if and only if the last job ends |
| `Mediator.EveryCallerGoesOn` | apps/wot-v3/harness/mediator-double.ts:392-394 | exactly those who called wait, the double takes no notice of them, and at rest each of them has gone on or does with its next turn |
| `Mediator.BusyOfOneStep` | apps/wot-v3/harness/mediator-double.ts:166-182 | the number of unfinished jobs grows with exactly what is begun and falls with exactly what ends |
| `Mediator.ReofferReachesWhatIsHeld` | apps/wot-v3/harness/mediator-double.ts:325-337 | a re-offer puts an unacked frame on its socket if and only if its hash was finished or it had been there before, and counts it as missed only with its hash unfinished |
| `Mediator.ReofferSorts` | apps/wot-v3/harness/mediator-double.ts:325-337 | a whole re-offer lets go of what is acked, puts the rest on the current socket, and leaves the frames of others |
| `Mediator.SlowHashMissesTheOpening` | apps/wot-v3/harness/mediator-double.ts:217-218 | a concrete run at rest with a held, unacked frame that the socket never saw |
| `Mediator.Double.Send` | apps/wot-v3/harness/mediator-double.ts:269-301 | every outcome of a send |
| `Mediator.Double.Route` | apps/wot-v3/harness/mediator-double.ts:223-237 | a routed frame is dropped, or forwarded and held |
| `Mediator.Double.CloseSocket` | apps/wot-v3/harness/mediator-double.ts:302-307 | closing unmaps the socket only if it is the client's current one |
| `Mediator.Double.ReadAcks` | apps/wot-v3/harness/mediator-double.ts:339-359 | the acks a client sent that the current or an old key opens |
| `Mediator.Double.OfferAll` | apps/wot-v3/harness/mediator-double.ts:330-336 | the re-offer loop drops what is acked and offers the rest |
| `Mediator.Double.RotateKey` | apps/wot-v3/harness/mediator-double.ts:379-383 | the old key is kept |
| `Mediator.Double.DropAll` | apps/wot-v3/harness/mediator-double.ts:384-386 | every current socket is closed and unmapped |
| `Mediator.Rest.JobEnds` | apps/wot-v3/harness/mediator-double.ts:169-180 | the count stays that of the unfinished jobs; the last one to end wakes all who wait, an earlier one wakes nobody |
| `Mediator.Rest.SettledTurn` | apps/wot-v3/harness/mediator-double.ts:392-394 | settled goes on if and only if no job and no route of the double is unfinished, and then every unacked frame was offered; otherwise the caller sleeps |
| `InboxAck.AckOnlyWhatIsSafe` | packages/wot-core/src/protocol/sync/inbox-ack-disposition.ts:115-155 | an ack is sent if and only if the outcome is safe to forget and all checks passed, dropping without one if and only if a rejection changed nothing |
| `InboxAck.AckedIsRecordedIsStored` | packages/wot-cli/src/WotCliClient.ts:427-495 | an acknowledged message was recorded, and a recorded one with a valid attestation was stored, whatever fails and however deliveries overlap; nothing but a valid attestation is ever stored |
| `InboxAck.EffectsHaveTheirEvents` | packages/wot-cli/src/WotCliClient.ts:427-592 | over every run a message is acknowledged, stored and recorded if and only if an ack of it was sent, a valid attestation was processed undisturbed, and a record of it succeeded; and it is on the queue if and only if it was enqueued and not acknowledged |
| `InboxAck.InconclusiveChangesNothing` | packages/wot-cli/src/WotCliClient.ts:452-545 | processing is inconclusive if and only if the storage call throws, for a receipt or a valid attestation, or an attestation finds no storage or outbox; then history, queue and store stay as they were; otherwise the message is to be recorded, and acknowledged if and only if it is a receipt or a valid attestation |
| `InboxAck.AckedByTheSecondDelivery` | packages/adapter-automerge/src/AutomergeReplicationAdapter.ts:3303-3377 | every message is off the queue after its second undisturbed delivery, after the first if and only if that applied it or the history knew it |
| `InboxAck.ProcessedOnce` | packages/wot-cli/src/WotCliClient.ts:427-450 | as long as deliveries of a message do not overlap, none is processed after it was concluded |
| `InboxAck.AgainIffLookedTwice` | packages/wot-core/src/application/messaging/inbox-reception-workflow.ts:135-152 | over every run a message is processed after it was concluded if and only if two deliveries of it looked at the history before the first of them recorded it and the other was processed afterwards |
| `InboxAck.OverlapProcessesAgain` | packages/wot-core/src/application/messaging/inbox-reception-workflow.ts:135-152 | a concrete run in which overlapping deliveries process a message twice |
| `InboxAck.Client.ApplyIncoming` | packages/wot-cli/src/WotCliClient.ts:502-545 | the store grows if and only if the attestation is the sender's own verified statement about this identity and saving it works; rejected is exactly what is not that, with storage and outbox there |
| `InboxAck.Client.ConcludeByDisposition` | packages/wot-cli/src/WotCliClient.ts:564-592 | record before ack, and neither without a conclusion |
| `InboxAck.Client.HandleInboxMessage` | packages/wot-cli/src/WotCliClient.ts:427-495 | one delivery from end to end: what is stored, recorded and acknowledged, and that nothing but a valid attestation is stored |
| `ChangeFraming.UnframedIffFramed` | packages/adapter-automerge/src/automerge-change-framing.ts:21-55 | a blob reads as a list if and only if it is the frame of that list and the list has at most a million changes of 32-bit length |
| `ChangeFraming.RoundTripIffFrameable` | packages/adapter-automerge/src/automerge-change-framing.ts:21-55 | a list comes back if and only if it is frameable |
| `ChangeFraming.FramesArePrefixFree` | packages/adapter-automerge/src/automerge-change-framing.ts:43-53 | no accepted blob is a proper prefix of another |
| `ChangeFraming.FrameChanges` | packages/adapter-automerge/src/automerge-change-framing.ts:21-35 | the buffer written behind a moving offset is the frame |
| `ChangeFraming.UnframeChanges` | packages/adapter-automerge/src/automerge-change-framing.ts:37-55 | the reading loop accepts and returns exactly what the format says |
| `Utf8.StringRoundTrip` | packages/adapter-automerge/src/space-invite-snapshot.ts:35-57 | a string survives encoder and decoder if and only if it has no lone surrogate and no leading byte order mark |
| `Utf8.BytesRoundTrip` | packages/adapter-automerge/src/space-invite-snapshot.ts:57 | the decoded string encodes to the same bytes if and only if they are well-formed UTF-8 without a leading mark |
| `InviteSnapshot.PayloadRoundTrip` | packages/adapter-automerge/src/space-invite-snapshot.ts:33-60 | a payload comes back if and only if its URL has no lone surrogate, no leading mark and a length that fits the header |
| `InviteSnapshot.BytesRoundTrip` | packages/adapter-automerge/src/space-invite-snapshot.ts:45-60 | accepted bytes re-encode identically if and only if their URL bytes are well-formed UTF-8 without a leading mark |
| `InviteSnapshot.EncodeSpaceInviteSnapshotPayload` | packages/adapter-automerge/src/space-invite-snapshot.ts:33-43 | the buffer written is the format; an empty URL is refused |
| `InviteSnapshot.DecodeSpaceInviteSnapshotPayload` | packages/adapter-automerge/src/space-invite-snapshot.ts:45-60 | the reads accept exactly the format |
| `DocId.BytesRoundTrip` | packages/adapter-automerge/src/automerge-doc-id.ts:43-66 | 16 bytes to UUID and back is the identity |
| `DocId.TextRoundTripIffCanonical` | packages/adapter-automerge/src/automerge-doc-id.ts:43-66 | text to bytes and back is the identity if and only if the text is canonical |
| `DocId.CanonicalTextsAreDistinct` | packages/adapter-automerge/src/automerge-doc-id.ts:43-54 | canonical texts with equal bytes are equal |
| `DocId.VersionFourIsInTheBits` | packages/adapter-automerge/src/automerge-doc-id.ts:36-41 | the version-4 expression accepts exactly the canonical texts with the version and variant bits of RFC 9562 |
| `DocId.FillBytes` | packages/adapter-automerge/src/automerge-doc-id.ts:43-54 | the filling loop writes the bytes of the hexadecimal pairs, or refuses the length |
| `PersonalDoc.ApplyIsMergeUnlessLost` | packages/adapter-yjs/src/YjsPersonalDocManager.ts:469-486 | applying a plain tree shows as the deep merge of the plain views if and only if no raw object is lost |
| `PersonalDoc.ApplyIntoNothing` | packages/adapter-yjs/src/YjsPersonalDocManager.ts:469-486 | into an empty map the plain view is the tree itself |
| `PersonalDoc.ApplyKeepsNoRawObjects` | packages/adapter-yjs/src/YjsPersonalDocManager.ts:469-486 | maps only written this way never lose anything |
| `PersonalDoc.MergeKeepsOutliving` | packages/adapter-yjs/src/YjsPersonalDocManager.ts:469-486 | which keys of the old tree survive a merge |
| `PersonalDoc.ApplyPlainToYmap` | packages/adapter-yjs/src/YjsPersonalDocManager.ts:469-486 | the recursive loop computes that map |
| `PersonalDoc.NotificationsRoundTrip` | packages/adapter-yjs/src/YjsPersonalDocManager.ts:264-290 | every notification state that is flattened into an empty map reads back as it was, without empty fields, whatever colons its keys have |
| `PersonalDoc.ApplyNotifications` | packages/adapter-yjs/src/YjsPersonalDocManager.ts:284-290 | the nested loops compute that flattening |
| `PersonalDoc.FlattenShows` | packages/adapter-yjs/src/YjsPersonalDocManager.ts:284-290 | flattening into any map adds each field's entries to that field alone |
| `PersonalDoc.AssignmentIsIsolated` | packages/adapter-yjs/src/YjsPersonalDocManager.ts:292-306 | assigning one field replaces it and leaves the others intact |
| `PersonalDoc.EntryIsIsolated` | packages/adapter-yjs/src/YjsPersonalDocManager.ts:334-366 | so do writing and deleting one entry |
| `PersonalDoc.RebuildKeepsTheSnapshot` | packages/adapter-yjs/src/YjsPersonalDocManager.ts:109-193 | the legacy rebuild empties the outbox and the legacy maps and shows all else as before if and only if record maps hold only Y.Maps and shown notification entries are plain values |
| `PersonalDoc.RebuiltEntryShows` | packages/adapter-yjs/src/YjsPersonalDocManager.ts:109-193 | an entry that was an array is rebuilt as a map by index, one that was a plain value as an empty map |
| `PersonalDoc.WrittenProfileShows` | packages/adapter-yjs/src/YjsPersonalDocManager.ts:145-168 | a profile written from scratch is what the snapshot shows of it |
| `PersonalDoc.WrittenNotificationsShow` | packages/adapter-yjs/src/YjsPersonalDocManager.ts:145-168 | so is the notification state, without its empty fields |
| `PersonalDoc.WrittenRecordsShow` | packages/adapter-yjs/src/YjsPersonalDocManager.ts:145-168 | so is every record map, and no other part changes |
| `Audit.AuditSpace` | packages/e2e-log-sync/stress/audit.ts:94-173 | the loop ends; unstalled it has pulled every stored entry and the missing writes are exactly the expected ones that no readable stored entry carries; it stalls only in front of a full page that does not verify, so never where all entries verify |
| `Audit.PullPage` | packages/e2e-log-sync/stress/audit.ts:108-158 | one page: numbers seen, content replayed, cursor advanced |
| `Audit.PageIsClosed` | packages/wot-relay/src/log-store.ts:770-792 | a page with an entry has every missing entry of its device up to it |
| `Audit.PageIsLimited` | packages/wot-relay/src/log-store.ts:770-792 | a page keeps the limit, and is said to be truncated if and only if something missing is not on it |
| `Audit.PageAdvances` | packages/e2e-log-sync/stress/audit.ts:159-168 | a page moves the cursor, past something missing, if and only if one of its entries verifies |
| `Audit.PageKeepsCovered` | packages/e2e-log-sync/stress/audit.ts:108-161 | everything stored up to the cursor has been pulled |
| `Audit.SeqGaps` | packages/e2e-log-sync/stress/audit.ts:175-191 | exactly the numbers between lowest and highest that are absent, ascending |
| `CatchUpController.Controller.RunFlight` | packages/adapter-yjs/src/InitialCatchUpController.ts:90-92 | a flight starts running and enters its first attempt |
| `CatchUpController.Controller.EnterAttempt` | packages/adapter-yjs/src/InitialCatchUpController.ts:104-110 | give up, wait for the backoff, or call |
| `CatchUpController.Controller.AwaitCatchUp` | packages/adapter-yjs/src/InitialCatchUpController.ts:111-113 | the call of one attempt |
| `CatchUpController.Controller.OnTimer` | packages/adapter-yjs/src/InitialCatchUpController.ts:132-143 | the timer releases the wait |
| `CatchUpController.Controller.AfterBackoff` | packages/adapter-yjs/src/InitialCatchUpController.ts:108-109 | after the wait the lifecycle is looked at again |
| `CatchUpController.Controller.AfterResend` | packages/adapter-yjs/src/InitialCatchUpController.ts:124-127 | a failing resend is reported and retried |
| `CatchUpRegistry.CatchUpTable.UpdateFrom` | packages/adapter-yjs/src/CatchUpRegistry.ts:51-54 | only the owner's report is heard |
| `CatchUpRegistry.CatchUpTable.ForgetDoc` | packages/adapter-yjs/src/CatchUpRegistry.ts:82-85 | forgetting publishes only where there was an entry |
| `CatchUpRegistry.CatchUpTable.PublishAll` | packages/adapter-yjs/src/CatchUpRegistry.ts:107-109 | the overview becomes the table |
| `PersonalLifecycle.LogSync.Begin` | packages/adapter-yjs/src/YjsPersonalLogSyncAdapter.ts:254-260 | start does nothing if started, else launches one init |
| `PersonalLifecycle.LogSync.ClaimCatchUpSource` | packages/adapter-yjs/src/YjsPersonalLogSyncAdapter.ts:231-242 | the previous subscription ends before the new one starts |
| `PersonalLifecycle.LogSync.AfterStoreInit` | packages/adapter-yjs/src/YjsPersonalLogSyncAdapter.ts:143-172 | the build assigns the coordinator, or fails |
| `PersonalLifecycle.LogSync.CatchFailure` | packages/adapter-yjs/src/YjsPersonalLogSyncAdapter.ts:132-137 | a failed build clears the single flight |
| `EncryptionKeys.Space.ApplyMembershipProjection` | packages/adapter-automerge/src/AutomergeReplicationAdapter.ts:2147-2172 | creator, members and admins are taken over as far as the projection has them |
| `EncryptionKeys.Space.WriteMembershipEvent` | packages/adapter-automerge/src/AutomergeReplicationAdapter.ts:1980-1990 | a write under an occupied key, whatever it holds, changes nothing; any other is observed at once |
| `SpaceCreation.Adapter.Settled` | packages/adapter-automerge/src/AutomergeReplicationAdapter.ts:1005-1007 | a settling flight clears the shared one only if it is that one |
| `PendingRotations.Rotations.AddPendingMessageToMemory` | packages/adapter-automerge/src/AutomergeReplicationAdapter.ts:2653-2658 | a message replaces the one with its id and goes to the end |
| `DurableLeave.Space.Winner` | packages/wot-core/src/protocol/sync/membership-events.ts:110-119 | the own winner, if it is a removal |
| `Mediator.Double.Deliver` | apps/wot-v3/harness/mediator-double.ts:211-221 | a frame is accepted, hashed to be held, and put on an open socket |
| `Mediator.Double.SendText` | apps/wot-v3/harness/mediator-double.ts:272-281 | a text is recorded, or closes the socket on the fault switch |
| `Mediator.Double.SendDirect` | apps/wot-v3/harness/mediator-double.ts:292-300 | a direct frame is refused under the switches, else accepted |
| `Mediator.Rest.JobStarts` | apps/wot-v3/harness/mediator-double.ts:169-171 | the count stays that of the double's unfinished jobs and routes when there is one more |
| `LoopGuard.FlagGuarded.MakeChange` | packages/adapter-automerge/src/AutomergePersonalLogSyncAdapter.ts:227-250 | a local change is held and, with the flag down, written as one entry |
| `BlockedReplay.Replay.Enter` | packages/adapter-automerge/src/AutomergeReplicationAdapter.ts:2742-2753 | the synchronous part, without counting a call |

## Left out

- Cryptography, signatures, capabilities and encodings of messages: a verified message is one that opens, a genuine rotation one whose sender is an admin and whose capability verifies; the set of admins does not change while rotations are buffered.
- Member-update messages, the resolution of pending member updates, admission and the self-removal rotation by observing admins.
- `SecureRemoval`: staging records of older versions without a staging id, several home brokers (the workflow refuses them), and the admin-remove phases of a self-leave. The state of the store, the broker and the runs is modelled on values; the content key needed by the commit is the one just activated, so the unchecked null append is treated in `DurableLeave` alone.
- `EncryptionKeys`: keys are opaque and delivery failures end the operation. The device's own DID, which the distribution skips, is not singled out. A recipient is judged when it is picked from the live cache; it may be removed while its envelope is being built.
- `PendingRotations`: rotations are handled one at a time, message ids are unique to their content, and key stores hold every generation up to the current one. A rotation buffered by another handler during a pass, and a crash between deleting and handling a message, are not modelled.
- `Membership`: strings are ordered by code point, not by UTF-16 code unit.
- `DurableLeave`: events about other members, distribution of the member-update and the snapshot.
- `BlockedReplay`: one space; the engine's apply is one step.
- `SpaceCreation`: what the phases write; the identity of coordinators, of which only the session is kept, and those that callers without a lease install after a stop; the reconnect timer and the vault and compact schedulers that `stop` also ends.
- `CatchUpController`: an `onError` or `isReady` that throws by itself.
- `CatchUpRegistry`: the set of listeners and their failures.
- `PersonalLifecycle`: what the listeners do, the restore-clone of a device id, and the coordinator build of the Automerge sibling, which is not single-flight.
- `LoopGuard`: listeners change the document only by local changes; an apply inside an apply does not occur.
- `Mediator`: HTTP, tokens, DIDComm and TSP packing; a repeated delivery may be of any accepted frame, not only of the last; a route always ends in one of its outcomes; the offline switch `phoneNet`.
- `InboxAck`: expiry of the message-id history, the follow-up actions after an attestation was stored, and the outcomes of the Automerge handlers beyond their disposition.
- `Utf8`: only UTF-8; the decoder is modelled to the replacement of each malformed part.
- `DocId`: the base58 form of the document id; a character outside the basic plane counts once, not twice, in the length check.
- `PersonalDoc`: trees are values, so concurrent writes inside one transaction and the identity of nested maps are not captured; plain arrays are opaque; a record entry that is a plain string or null; the key `__proto__`, which plain objects do not hold as a field.
- `Audit`: the stored log does not grow during the audit; counters of failures and the classification of gaps.
- UI, build and device configuration, benchmarks, outbox and metadata stores, the profile server, vault authentication and the stress runner.
