# UNF: verified models of the node and egress control logic

UNF is a Kubernetes network fabric. This project models, in Dafny 4.11, the parts of it whose
correctness depends on what happens across crashes, failed writes and concurrent tasks, and
proves what they guarantee over every run. `dafny verify dfyconfig.toml` checks everything.

What is modelled, and how:

- **The attachment journal** (`journal_*.dfy`, `attachments.dfy`): the phase machine of one pod
  attachment, its one-record rollback, the durable file, the retirement hook, and the
  process-local *cut* that fences readers. The journal is a class; its transitions are also
  functions on values, so that runs with failed writes (before or after the atomic rename),
  failed hooks, crashes and reopens can be folded over arbitrary event lists. What it grants,
  checks, refuses, revokes and repeats is stated exactly in `journal_acceptance.dfy`.
- **The CNI lifecycle** (`lifecycle*.dfy`, `deferred.dfy`, `delete_durability.dfy`,
  `plugin_steps.dfy`, `garbage_collector.dfy`, `command_reports.dfy`, `healthy_commands.dfy`,
  `delete_outcomes.dfy`): ADD, DEL, CHECK and GC as a step system over the
  journal, the kernel's links and the durable queue of deferred deletes. Requests and replies may
  be lost, kernel calls may fail with or without effect, plugin, agent and host may die between
  any two steps. A request takes effect when it is made or not at all. The drain loop and the
  paged collector are also methods over the journal class, proved to end where the steps end
  when step number i meets the i-th answer. What a command may report holds for every run; what
  it achieves when nothing fails is stated exactly, success and failure.
- **Commands side by side** (`concurrent_*.dfy`): the same steps of many commands interleaved, as
  section 3 of the CNI specification 1.1.0 allows: one command at a time per container, and no
  ADD or DEL during a GC. A drain holds its network's queue lock until its last entry is removed.
- **Late requests** (`late_*.dfy`): a plugin that gives up waiting leaves its request on the way,
  and the agent may carry it out at any later time, beside whatever then runs.
- **The locality fence** (`locality*.dfy`, `bank_publisher.dfy`): the kernel gate of attachment
  nonces, the journal hook that revokes them, and the publisher that carries one cut from
  selection to publication. The publisher is a class; `Polled` gives its poll as steps of the
  run, with any foreign activity between its two locks. Beside what is never published stands
  what is: exactly when a bank becomes active, and that every restart publishes again.
- **The encryption map synchronizer** (`encryption_*.dfy`): two map banks behind one config
  record, the pending and current checkpoint files, the restart decision, and the bridge over
  generations that were admitted but never published. Every crash point is a state of the run.
  How long a bridge keeps the node dark, and what the node counts as active, hold over all runs.
- **The egress allocator** (`egress_*.dfy`): prefix arithmetic, the bounded candidate scan,
  leases with their inverse index, pool retention, checkpoint and restore, and exactly which
  calls are served.
- **BGP transactions and BFD evidence** (`bgp*.dfy`, `bfd.dfy`): sealed snapshots, the bounded
  delta between two of them, exactly what is accepted and what tampering shows, exact readback,
  and peer correspondence.
- **The DNS observer** (`dns*.dfy`): query encoding, name decompression (section 4.1.4 of
  RFC 1035), CNAME chasing (section 3.6.2 of RFC 1034), and the round trip of whole responses.

Shared vocabulary is in `common.dfy` (options, orders, sorting, powers of two).

Digests are represented by the value they commit to, so equal digests mean equal contents.
Random nonces, clock readings, kernel answers, file-system outcomes and fresh identities are
event parameters. Network masks are stated as truncation: a value minus its remainder modulo a
power of two. Byte lengths are string lengths.

Where the code does not do what one might expect, a lemma names the input and another states
exactly when it does:

- A deferred delete whose interface name starts with `_`, `.` or `-` is queued but never drains:
  the plugin's check accepts it (bins/unf-cni/src/lib.rs:685-691), the journal rejects it
  (crates/unf-cni-state/src/lib.rs:1292-1303). `QueueAcceptsUndrainableKey` shows it;
  `DrainDeferredDeletes` succeeds if and only if every entry has a valid key, is not Aborting and
  has a buildable plan.
- `reconcile_pools` can leave pools that a restart refuses: a pool retained for its leases beside a
  new one with the same UID, or more pools than the limit of 64
  (crates/unf-egress/src/allocation.rs:292-313). `ReconcileCanBlockRestore` and
  `CrowdCanBlockRestore` show it; `CheckpointRoundTrip` says restore returns the same state if and
  only if there are at most 64 pools with different UIDs, and `ReconcileThenRestore` says the same
  of a reconcile call in terms of what its caller can check beforehand.
- A checkpoint with two leases of the same epoch is accepted
  (crates/unf-egress/src/allocation.rs:414-444). `SharedEpochIsAccepted` shows it; `RestoredIsValid` says the restored allocator is valid if and only if all epochs differ.
- A pending encryption checkpoint without a predecessor is accepted over an existing current one
  when no bridge is on disk, since both absent values compare equal
  (bins/unf-agent/src/encryption_maps.rs:204-213), but can then never be resumed.
  `PendingCanBeStranded` gives the run, after which no admission, bridge or restart ever changes
  the files again.
- A later generation whose rename takes effect without being reported, and which is offered again
  before a crash, leaves a pending file that names neither the current generation nor a bridge:
  the agent refuses every restart (bins/unf-agent/src/encryption_maps.rs:204-213).
  `RestartCanBeRefused` gives the run.
- A bridge file whose write takes effect without being reported is not removed by the next
  publication, since removal follows memory (bins/unf-agent/src/encryption_maps.rs:509-511), and
  then stops every restart. `BridgeCanBlockRestart` gives the run. `CrashIsRecoverable` says
  exactly which files let the agent start, with or without a bridge, and `PendingIsResumed` when
  the pending transaction then goes on.
- A pending file can survive the quarantine that should drop it: its write took effect without
  being reported, and only a transaction memory knows is removed
  (bins/unf-agent/src/encryption_maps.rs:350-352). `PendingFileCanSurvive` gives the run;
  `BridgeQuarantines` says the file goes if and only if memory held a transaction.
- An agent can count its generation as active while nothing is selected: a quarantine zeroed the
  config, its purge was refused, and revalidation is demanded only at the end
  (bins/unf-agent/src/encryption_maps.rs:283-285, 332-353). `ActiveCanBeZeroed` gives the run;
  `ActiveIsSelected` says that in every run an active generation is selected, its bank exact, if
  and only if the config is not zero, and that it is zero only behind a bridge.
- A DEL can report success and leave its key in the journal file: an ADD whose write failed after
  the rename left it there and not in memory, and a later reopen brings it back
  (crates/unf-cni-state/src/lib.rs:750-778). `DeletedKeyCanReturn` gives the run;
  `ReportedDeleteIsDurable` says exactly when the key is left, and with what record.
- A request carried out after its plugin gave up on it
  (bins/unf-cni/src/lifecycle.rs:51-85) can complete the removal of a record in use: the pair then
  has no owner, and a DEL reports success over it. `LateRequestBreaksOwnership` gives the run;
  `LateRequestIsSafe` says exactly which late requests break what interleaved commands keep, and
  `LateRunsAreSafe` that every run without such a one keeps it.
- A change of a route's stored next hop or capsule alone is accepted and retained, because the
  digest that is compared is recomputed without reading them
  (crates/unf-egress/src/bgp.rs:563-605). `NextHopChangeIsInvisible` shows it;
  `DeltaIsExact` says the delta is exact if and only if common routes store the same ones, as
  routes that come from sealing do.

## Model

| member | source | states |
|---|---|---|
| Attachments.Allocate | crates/unf-ipam/src/lib.rs:460-493 | A granted lease lies in both node blocks and shares neither address with any recorded lease |
| JournalDocument.ValidateDocument | crates/unf-cni-state/src/lib.rs:1132-1185 | The one-pass loop with its last-key comparison accepts a document exactly when every record and every pair of records is acceptable, and then returns its table |
| JournalDocument.LoadEncode | crates/unf-cni-state/src/lib.rs:1036-1130 | For every valid table, opening what was persisted returns the same table and retirement requirement |
| JournalRuns.EffectIsMove | crates/unf-cni-state/src/lib.rs:701-748 | An operation changes at most its own key, by a legal phase transition, and keeps leases, interfaces and nonces distinct |
| JournalRuns.PrepareMove | crates/unf-cni-state/src/lib.rs:864-925 | Preparing adds one Preparing record whose lease, interface and nonce nobody has |
| JournalRuns.PhaseMoves | crates/unf-cni-state/src/lib.rs:927-1017 | Commit, begin-abort and begin-delete only make legal phase moves and keep the table valid |
| JournalRuns.CompletionMoves | crates/unf-cni-state/src/lib.rs:962-1034 | Only an Aborting or a Deleting record is ever dropped |
| JournalRuns.ApplyCases | crates/unf-cni-state/src/lib.rs:648-779 | What one transaction leaves in memory, on disk and with the hook, for every answer of hook and file system: nothing, the whole move, or a rollback with the fence gone |
| JournalRuns.DiskTracksMemory | crates/unf-cni-state/src/lib.rs:1036-1090 | In every run the file holds the acknowledged table or that table one legal move ahead, equals memory whenever the fence exists, and always opens again to itself |
| JournalRuns.RequirementIsSticky | crates/unf-cni-state/src/lib.rs:611-634 | Once readers must install a hook, every later file and every reopened journal says so |
| JournalRuns.CutFreezesJournal | crates/unf-cni-state/src/lib.rs:544-570 | No ABA: a cut current at two points of a run was current at every point between, with the same table in memory and the same file |
| JournalRuns.InvalidatedCutNeverReturns | crates/unf-cni-state/src/lib.rs:750-779 | A cut from before a failed write or hook, a hook installation or a crash is never current again |
| AttachmentJournals.AttachmentJournal.Open | crates/unf-cni-state/src/lib.rs:465-509 | A journal opens exactly when there is no file or the file loads, with the table and requirement of the file, never a hook or an old fence |
| AttachmentJournals.AttachmentJournal.ApplyRequest | crates/unf-cni-state/src/lib.rs:648-699 | The in-place transaction computes exactly the transition ApplyCases describes |
| AttachmentJournals.AttachmentJournal.PersistChange | crates/unf-cni-state/src/lib.rs:750-778 | Hook before file, rollback of one record on every failure, fence cleared when hook or write fails |
| AttachmentJournals.AttachmentJournal.InstallHook | crates/unf-cni-state/src/lib.rs:580-609 | One hook per open journal, under a new fence |
| AttachmentJournals.AttachmentJournal.InstallRequiredHook | crates/unf-cni-state/src/lib.rs:611-626 | The requirement is written before a registration is handed out |
| AttachmentJournals.AttachmentJournal.ListRecords | crates/unf-cni-state/src/lib.rs:781-819 | Range seek equals filtering by network and cursor, sorting by key and cutting at the limit, for every cursor including one of another network |
| AttachmentJournals.AttachmentJournal.ListRequest | crates/unf-cni-state/src/lib.rs:648-712 | A listing is refused exactly where the transaction is, for want of a hook, an unknown schema, a record an old client cannot read or a bad query, and changes nothing |
| AttachmentJournals.RangeIsPast | crates/unf-cni-state/src/lib.rs:796-812 | The seek range holds exactly the wanted keys of the network and nothing of an earlier network |
| JournalAcceptance.AllocateExactly | crates/unf-ipam/src/lib.rs:460-493 | A lease is granted exactly while recorded ones are distinct and fewer than 65,536 and both blocks have a free address in range, and is the lowest free address of each |
| JournalAcceptance.PhasesExactly | crates/unf-cni-state/src/lib.rs:927-1034 | Commit, begin and complete are served exactly in the phases that admit them, also for a missing record; the record keeps everything but its phase, no other record changes, and the answer is what is then there |
| JournalAcceptance.RetryChangesNothing | crates/unf-cni-state/src/lib.rs:648-779 | Any request that succeeded, made again, gets the same answer and changes neither record, revision, file nor nonce, whatever hook and file system would answer by then |
| JournalAcceptance.RevokesExactly | crates/unf-cni-state/src/lib.rs:750-778 | The hook is handed a nonce exactly when a served delete is about to change the Ready record that carries it; if it refuses, record and file stay and the fence is gone |
| JournalAcceptance.CheckExactly | crates/unf-cni-state/src/lib.rs:979-996 | CHECK answers exactly for a Ready record of the same key, namespace, MTU and bound workload, and never changes anything |
| JournalAcceptance.OlderClients | crates/unf-cni-state/src/lib.rs:821-862 | An older client is refused exactly when its request concerns a record or a workload it cannot represent; otherwise it is served as a current one, and sees nothing it cannot represent |
| JournalAcceptance.OlderListings | crates/unf-cni-state/src/lib.rs:821-862 | A listing an older client gets holds only records it can represent |
| LifecycleSafety.TransactKeepsLinks | crates/unf-cni-state/src/lib.rs:944-1034 | A transaction keeps every live link recorded in file and memory as long as a record is dropped only when its link is gone |
| LifecycleSafety.NoLinkWithoutOwner | bins/unf-cni/src/lifecycle.rs:253-453 | In every serialized run every live link is the pair of a record in the file and in a running agent's memory with the same lease, and no two live links share a key, interface or address |
| LifecycleSafety.NextSafe | bins/unf-cni/src/lifecycle.rs:477-610 | Every step of every command, including rollback and recovery, keeps that invariant |
| DeferredDeletes.NoDeleteOvertakesAnAdd | bins/unf-cni/src/lib.rs:307-323 | A queued delete was always queued after the last ADD of its network began, whatever fails |
| DeferredDeletes.ReportedDeleteIsDone | bins/unf-cni/src/lib.rs:330-346 | A DEL that reports success is queued, or gone from the journal with no link left |
| DeleteDurability.ReportedDeleteIsDurable | bins/unf-cni/src/lib.rs:330-346 | A DEL that reports success without being queued has left the file too, unless it found the key in the file only; then the fence is gone and that key's Preparing record is all that differs |
| DeleteDurability.DrainedDeleteIsDurable | bins/unf-cni/src/lib.rs:348-373 | The same for a drained entry about to leave the queue |
| ConcurrentDurability.InterleavedDeleteIsDurable | bins/unf-cni/src/lib.rs:330-346 | The same of a reported DEL however commands of different containers interleave |
| ConcurrentDurability.InterleavedDrainIsDurable | bins/unf-cni/src/lib.rs:348-373 | The same of a drained entry among other commands |
| DeleteDurability.DeletedKeyCanReturn | crates/unf-cni-state/src/lib.rs:750-778 | A run in which a reported, unqueued DEL leaves its key in the file and a reopen brings it back |
| DeferredDeletes.ReportedAddIsAlive | bins/unf-cni/src/lifecycle.rs:294-380 | An ADD that reports success returns a Ready record whose link is alive |
| CommandReports.ReportsAreOwn | bins/unf-cni/src/lifecycle.rs:253-453 | In every serialized run a reported record has the key, namespace, MTU and bound workload of the ADD started last, and a reported key is that of the DEL started last |
| CommandReports.InterleavedReportsAreOwn | bins/unf-cni/src/lifecycle.rs:253-453 | The same for every command however commands of different containers interleave |
| CommandReports.ConflictingAddFails | bins/unf-cni/src/lifecycle.rs:786-799 | An ADD that differs from the record of its key fails at once and changes nothing, whatever the agent answers |
| HealthyCommands.FreshAdd | bins/unf-cni/src/lifecycle.rs:253-380 | Without failures an ADD of a new key ends with exactly one more record, Ready in table and file, of its own request, and exactly its pair alive; if nothing can be granted or built, with nothing changed |
| HealthyCommands.RepeatedAdd | bins/unf-cni/src/lifecycle.rs:253-380 | Over a record of its key an ADD returns a Ready one as it is if its pair is alive, finishes a prepared one, removes one that cannot be built, and refuses a conflicting or deleting one |
| HealthyCommands.RecoveringAdd | bins/unf-cni/src/lifecycle.rs:477-491 | Over its own aborted record an ADD clears pair and record first and then ends as over none |
| HealthyCommands.AddSucceedsExactly | bins/unf-cni/src/lifecycle.rs:253-380 | Without failures an ADD succeeds exactly if its key is new, prepared or aborted and can be granted and built, or Ready with its pair alive; then with a record of its request, alive and in the journal, and no other record changed |
| HealthyCommands.FailedAddLeavesNothing | bins/unf-cni/src/lifecycle.rs:525-610 | A new ADD whose link or routes fail leaves no record in table or file and no pair, whether the failed call took effect or not |
| DeleteOutcomes.OutageDeleteIsQueued | bins/unf-cni/src/lib.rs:307-346 | While the agent is away a DEL reports success, queued once, and nothing else changes; it fails exactly if its queue is full |
| DeleteOutcomes.DeleteSucceedsExactly | bins/unf-cni/src/lifecycle.rs:432-453 | Without failures a DEL succeeds exactly if its key is valid, not Aborting and buildable, and then record, file entry and pair are gone; otherwise it fails and is queued |
| DeferredDeletes.LeavesQueueOnlyDeleted | bins/unf-cni/src/deferred.rs:244-275 | An entry leaves the queue only in the removal step of its own drain, with its link gone |
| DeferredDeletes.RemovalFollowsDelete | bins/unf-cni/src/lib.rs:348-373 | That step is reached only from a delete that left the key out of the journal |
| DeferredDeletes.DrainEntry | bins/unf-cni/src/lifecycle.rs:432-453 | With a healthy agent and kernel one queued delete succeeds exactly when its key is valid, not Aborting and buildable, and then removes exactly its record and link; these are the plugin's drain steps |
| DeferredDeletes.DrainDeferredDeletes | bins/unf-cni/src/lib.rs:348-373 | The drain empties the list if and only if every entry is drainable; otherwise it stops at the first that is not, having removed exactly the entries before it; the plugin's steps reach the same queue, links and journal |
| DeferredDeletes.QueueAcceptsUndrainableKey | bins/unf-cni/src/lib.rs:685-691 | A key the plugin accepts and the journal rejects, which therefore never drains |
| GarbageCollector.CollectRecord | bins/unf-cni/src/lifecycle.rs:213-251 | Collecting one record touches no other key, success means the record is gone, it does exactly the collector's plugin steps with the same answers, and when all of them go well it succeeds exactly if the pair can be built |
| GarbageCollector.CollectPage | bins/unf-cni/src/lifecycle.rs:170-200 | A page attempts its stale records in order, deleting between pages hides none of the rest, and it ends where the plugin steps with the same answers end |
| GarbageCollector.CollectGarbage | bins/unf-cni/src/lifecycle.rs:141-211 | The paged walk terminates and attempts stale records of the network once each, in order and without a gap; it attempts all of them exactly when the journal serves, the network's name is valid and no listing is lost; every other record is left alone; without failures all attempted are gone; when all answers go well exactly the unbuildable ones stay; and its outcome is that of the plugin steps with the same answers |
| ConcurrentSteps.StepElsewhere | bins/unf-cni/src/lifecycle.rs:253-453 | A step of one command leaves the links and records of every other attachment alone |
| ConcurrentSafety.NextClusterSafe | bins/unf-cni/src/lib.rs:307-373 | Every step of interleaved commands keeps each running command's place safe, one holder per queue lock, and no ADD or DEL beside a collection |
| ConcurrentSafety.InterleavedLinksAreOwned | bins/unf-cni/src/lifecycle.rs:253-453 | However commands of different containers interleave, every live link has its durable and remembered owner and no address is on two links |
| ConcurrentSafety.InterleavedDeletesStayBehind | bins/unf-cni/src/deferred.rs:134-147 | Also among commands queueing and draining at the same time, a queued delete was queued after the last ADD of its network began |
| ConcurrentSafety.AddWorksAlone | bins/unf-cni/src/lib.rs:348-373 | From the end of its drain on, no other command works on an ADD's attachment and its key is not queued |
| ConcurrentSafety.InterleavedReportsHold | bins/unf-cni/src/lib.rs:330-346 | Among other commands, a DEL that reports success is queued or done and an ADD that does is Ready and alive |
| LateEffects.LateRequestIsSafe | bins/unf-cni/src/lifecycle.rs:51-85 | A late request keeps the interleaved invariant exactly unless it completes the removal of a record in use and its write reaches the file; if the pair is alive it is then without an owner |
| LateEffects.LinkerLosesOwner | bins/unf-cni/src/lifecycle.rs:294-380 | If the pair is not alive yet, the ADD about to create it leaves it without an owner |
| LateEffects.LateRunsAreSafe | bins/unf-cni/src/lifecycle.rs:51-85 | In every interleaved run whose late requests remove no record in use, every live link is owned and every report means what it says |
| LateRun.LateRequestBreaksOwnership | bins/unf-cni/src/lifecycle.rs:51-85 | A run from first boot in which one late request leaves a live pair without an owner and a later DEL reports success over it |
| LocalitySafety.TransactShrinks | crates/unf-cni-state/src/lib.rs:750-772 | A journal transaction never changes a record whose nonce stays in the gate: the hook revokes it before the file changes |
| LocalitySafety.IssueAllLeases | crates/unf-locality/src/observed.rs:254-262 | Binding leases every record in order or returns nothing, and only adds gate entries under serials never used before |
| LocalitySafety.BootSafe | bins/unf-agent/src/locality_runtime.rs:213-232 | A journal opens only after the restart withdrew the bank, so it finds none selected, and where the file requires a hook it refuses to serve until it has one |
| LocalitySafety.UnhookedNodeIsDark | bins/unf-agent/src/locality_runtime.rs:213-232 | In every run an open journal without a hook faces no selected bank, and serves nobody if its file requires a hook |
| LocalitySafety.LiveEndpointsAreReady | crates/unf-locality/src/incarnation.rs:80-87 | In every run, the selected bank compares against the gate the journal revokes from, and what it finds live there is a Ready record in memory and on disk, unchanged since it was leased, and so is every nonce in the gate |
| LocalitySafety.ArmedBankIsWhole | crates/unf-locality/src/observed.rs:280-303 | A bank is selected only while the cut's placement, the selection's and the applied one are the same and the journal is where both cuts were taken, and then every endpoint of it is live and every record is the journal's and the file's |
| LocalitySafety.DisarmedForever | crates/unf-locality/src/incarnation.rs:243-273 | Once a leased endpoint is not live, nothing later in the run makes it live again, even a new lease for the same nonce |
| BankPublishers.BankPublisher.Clear | bins/unf-agent/src/locality_publisher.rs:69-81 | Withdrawal before forgetting; a failed withdrawal keeps the owner of the active bank |
| BankPublishers.BankPublisher.Bind | crates/unf-locality/src/observed.rs:232-263 | The loop over observed records and the leasing take exactly the leasing step of the run |
| BankPublishers.BankPublisher.Publish | crates/unf-locality/src/admission.rs:151-170 | Publication withdraws first and takes exactly the publication step of the run |
| BankPublishers.BankPublisher.Synchronize | bins/unf-agent/src/locality_publisher.rs:86-214 | One poll is the check step followed by at most one candidate step under what the second lock finds |
| BankPublishers.PollIsSafe | bins/unf-agent/src/locality_publisher.rs:107-205 | A poll with any journal or placement change between its locks keeps the invariant of the run |
| LocalityPublication.PublishExactly | crates/unf-locality/src/admission.rs:151-170 | A bank becomes active exactly if it was sealed, nothing moved since its cut, its gate is the journal's and in use, and the kernel obeys; what is published in every other case |
| LocalityPublication.PollExactly | bins/unf-agent/src/locality_publisher.rs:86-214 | A poll keeps a settled bank, withdraws any other, drops a candidate whose cut moved, and makes a bank active only if nothing moved at either lock |
| LocalityPublication.PollLeavesOnlyCurrent | bins/unf-agent/src/locality_publisher.rs:86-214 | In every run whose withdrawals succeed, a poll with a current selection leaves nothing published but the active bank, of the placement and journal the first lock saw |
| LocalityPublication.SelectionIsPublished | bins/unf-agent/src/locality_publisher.rs:86-214 | Three polls without failure or foreign change publish a selection: one live endpoint per record, in order; a fourth changes nothing |
| LocalityPublication.RefreshSelects | bins/unf-agent/src/cni_inventory.rs:43-90 | A refresh takes exactly the placed records that are Ready and bound to a workload and a nonzero nonce, in key order, under the present cut and placement |
| LocalityPublication.FailedRefreshPauses | bins/unf-agent/src/cni_inventory.rs:43-68 | A failed refresh forgets the selection, and then no poll observes, leases, publishes or withdraws anything |
| LocalityPublication.LeaseExactly | crates/unf-locality/src/observed.rs:232-263 | Observed records are sealed exactly if nothing moved, gate and records are the journal's, and every lease is issued; a refused lease leaves a retired gate |
| LocalityPublication.IssueExactly | crates/unf-locality/src/incarnation.rs:243-273 | A lease reuses a sound live serial or takes a larger one than any before, within 64 bits; every failure but that of the lookup retires the gate |
| LocalityReboot.RebootRepublishes | bins/unf-agent/src/locality_runtime.rs:213-232 | Whatever happened before, a closed node that boots, enrolls a gate, selects and polls three times publishes one live endpoint for exactly the placed records its journal file holds Ready and bound |
| LocalityReboot.FirstAttachmentIsPublished | crates/unf-locality/src/admission.rs:151-170 | The run from first boot: a first attachment, committed, survives a crash and is published alone and live |
| LocalityReboot.DeleteDisarms | crates/unf-locality/src/incarnation.rs:80-87 | A recorded deletion takes the nonce out of the gate, so every bank that carries the record finds it dead |
| EncryptionMaps.Prune | bins/unf-agent/src/encryption_maps.rs:796-827 | Completes exactly when the kernel accepts as many writes as there are stale entries, which are then gone and counted; wherever a refused write stops it, no other bank has changed |
| EncryptionMaps.Fill | bins/unf-agent/src/encryption_maps.rs:828-884 | Completes exactly when the kernel accepts as many writes as entries are missing or differ; then every desired entry is present and inserted, updated and retained count their kinds; wherever a refused write stops it, no other bank has changed |
| EncryptionMaps.CountsAddUp | bins/unf-agent/src/encryption_maps.rs:789-886 | Inserted, updated and retained add up to the desired size; removed, updated and retained to the old size |
| EncryptionMaps.PinnedMaps.ReconcileBank | bins/unf-agent/src/encryption_maps.rs:789-886 | From any contents it succeeds exactly when the kernel accepts as many writes as entries are stale, missing or changed; then the bank is exactly the desired image in all four tables and the counters balance; no write ever touches another bank |
| EncryptionGenerations.VerifyAgainst | bins/unf-agent/src/encryption_maps.rs:110-131 | The cursor loop accepts exactly the bridges whose links run contiguously from the physical generation to the admission |
| EncryptionGenerations.First | bins/unf-agent/src/encryption_maps.rs:74-85 | A bridge starts exactly for a verified admission that extends the physical generation |
| EncryptionGenerations.Advance | bins/unf-agent/src/encryption_maps.rs:87-108 | Advancing fails only on a broken bridge, a bad admission or a gap, never on its own final check |
| EncryptionGenerations.BridgeIsSkippedChain | bins/unf-agent/src/encryption_maps.rs:73-131 | Any sequence of first and advance calls builds a bridge exactly for contiguous verified admissions, and that bridge is the ordered list of every skipped transaction |
| EncryptionGenerations.BridgeClimbs | crates/unf-encryption/src/fast_path_transaction.rs:493-513 | The logical generation of a bridge is strictly later than the physical one |
| EncryptionSafety.DecideSafe | crates/unf-encryption/src/fast_path_transaction.rs:455-487 | No restart decision leads to a write into the bank the config points to |
| EncryptionSafety.BridgeSafe | bins/unf-agent/src/encryption_maps.rs:293-355 | Starting a bridge keeps the config tied to an exact bank, whatever the bridge file write does |
| EncryptionQuarantine.BridgeExactly | bins/unf-agent/src/encryption_maps.rs:293-332 | A bridge is begun exactly for a verified admission that extends the bridge in force, or the physical generation, or is already bridged, and that no other pending transaction stands against; otherwise nothing happens |
| EncryptionQuarantine.BridgeQuarantines | bins/unf-agent/src/encryption_maps.rs:332-355 | A completed call leaves no generation selected, no connection, the bridge recorded and revalidation demanded; the pending file goes exactly if memory held a transaction |
| EncryptionQuarantine.BridgeStaysDark | bins/unf-agent/src/encryption_maps.rs:293-355 | In every run after it, through crashes, restarts, further bridges and failures, the config stays zero and nothing connects until a transaction that extends the bridge is selected |
| EncryptionQuarantine.QuarantineWaits | bins/unf-agent/src/encryption_maps.rs:293-355 | A resting agent that begins a bridge then waits behind it, with the skipped generation as predecessor |
| EncryptionQuarantine.SuccessorEndsQuarantine | bins/unf-agent/src/encryption_maps.rs:453-512 | A successor of the bridge, published without failures, is selected, exact and current, and the bridge is gone from memory and disk |
| EncryptionQuarantine.PublishCompletes | bins/unf-agent/src/encryption_maps.rs:453-512 | From rest, a publication without failures ends with the generation selected, exact and current on disk and in memory, and nothing pending |
| EncryptionQuarantine.PendingFileCanSurvive | bins/unf-agent/src/encryption_maps.rs:350-352 | The run from first boot after which a completed quarantine leaves the pending file |
| EncryptionAuthority.ActiveIsSelected | bins/unf-agent/src/encryption_maps.rs:278-285 | In every run an active generation that needs no revalidation is selected, its bank exact, if and only if the config is not zero, which it is only behind a bridge |
| EncryptionAuthority.ActiveCanBeZeroed | bins/unf-agent/src/encryption_maps.rs:332-353 | The run from first boot after which a generation counts as active and nothing is selected |
| EncryptionAuthority.RestartRevalidates | bins/unf-agent/src/encryption_maps.rs:461-478 | After a restart nothing counts as active until the current generation itself is offered again |
| EncryptionSafety.ConfigNamesExactBank | bins/unf-agent/src/encryption_maps.rs:531-660 | At every crash point the config is zero or names the current or the pending checkpoint, whose bank is exact |
| EncryptionSafety.WritesAvoidLiveBank | bins/unf-agent/src/encryption_maps.rs:563-582 | No step of any run changes an entry of the bank a nonzero config points to, also when a bridge makes the target the last physical bank |
| EncryptionRestarts.CrashIsRecoverable | bins/unf-agent/src/encryption_maps.rs:166-272 | After a crash anywhere, with or without a bridge on disk, the agent starts again exactly when the checkpoint files allow it; of the kernel only a zero config behind a crossed bridge matters |
| EncryptionRestarts.PendingIsResumed | bins/unf-agent/src/encryption_maps.rs:453-518 | Offered again, the pending transaction goes on exactly when it extends what the files make the predecessor and, behind a bridge, the config is zero or already its own |
| EncryptionRestarts.RefusedForever | bins/unf-agent/src/encryption_maps.rs:204-213 | A refused restart is refused for good, whatever happens meanwhile |
| EncryptionRestarts.LostRenameIsFinal | bins/unf-agent/src/encryption_maps.rs:500-512 | After any generation's unreported rename, a second offer and a crash, the files never change again and, unless it was the first generation, the agent never starts |
| EncryptionRestarts.StrayBridgeIsFinal | bins/unf-agent/src/encryption_maps.rs:221-247 | From any resting agent, an unreported bridge write followed by an ordinary publication and a crash leaves files that no restart accepts |
| EncryptionRestarts.PendingCanBeStranded | bins/unf-agent/src/encryption_maps.rs:204-213 | The run from first boot for every first generation: it restarts, yet no admission, bridge or restart ever takes it up |
| EncryptionRestarts.RestartCanBeRefused | bins/unf-agent/src/encryption_maps.rs:204-213 | The run from first boot for every pair of successive generations, after which no restart succeeds |
| EncryptionRestarts.BridgeCanBlockRestart | bins/unf-agent/src/encryption_maps.rs:221-247 | The run from first boot for every skipped and every published second generation, after which no restart succeeds |
| EgressPrefixes.ContainsIsBlock | crates/unf-egress/src/lib.rs:115-126 | A canonical prefix contains exactly the block that starts at its address |
| EgressPrefixes.OverlapIsSharedAddress | crates/unf-egress/src/lib.rs:128-132 | The overlap test holds exactly when two canonical prefixes share an address |
| EgressPrefixes.CandidatesAreUsable | crates/unf-egress/src/allocation.rs:539-583 | The candidates of a prefix are exactly the usable addresses whose offset fits the index: all of them for IPv4 |
| EgressPrefixes.CandidateIsValid | crates/unf-egress/src/allocation.rs:539-565 | Every candidate is a usable address without overflow, strictly increasing with its index |
| EgressPools.NormalizedIsPoolSet | crates/unf-egress/src/lib.rs:355-395 | An accepted pool list becomes valid, ordered, uniquely named and pairwise disjoint pools |
| EgressPools.ScanFindsFirst | crates/unf-egress/src/allocation.rs:509-537 | The scan returns the first unreserved address of the concatenated candidate sequences cut at the budget, and gives up only when that whole cut is reserved |
| EgressPools.AllocateFromPool | crates/unf-egress/src/allocation.rs:509-537 | The nested loops compute that scan with the budget of 1,048,576 |
| EgressSafety.NormalRequestIsNormal | crates/unf-egress/src/lib.rs:722-770 | A normalized address request asks for the same addresses or families and count, in strictly ascending order, and is its own normal form |
| EgressSafety.PlanIsGood | crates/unf-egress/src/allocation.rs:368-412 | Planned addresses are nonempty, bounded, strictly ascending, held by nobody, and satisfy the request's family counts and pool |
| EgressSafety.AllocateKeepsValid | crates/unf-egress/src/allocation.rs:174-240 | A successful allocation or refresh keeps the whole allocator invariant |
| EgressSafety.ReleaseKeepsValid | crates/unf-egress/src/allocation.rs:247-263 | Releasing removes exactly the owner's lease and index entries and keeps the invariant |
| EgressSafety.MergedIsPoolSet | crates/unf-egress/src/allocation.rs:292-310 | Retained pools keep their definition and everything kept stays pairwise disjoint |
| EgressSafety.ReconcileKeepsValid | crates/unf-egress/src/allocation.rs:272-314 | After any reconcile every pool-backed lease still satisfies its request |
| EgressAllocators.TakeAll | crates/unf-egress/src/allocation.rs:392-401 | The family and count loops reserve each address before looking for the next |
| EgressAllocators.EgressAllocator.Allocate | crates/unf-egress/src/allocation.rs:174-240 | The in-place call computes the specified state and lease, keeps the invariant, and changes nothing when it fails |
| EgressAllocators.EgressAllocator.Release | crates/unf-egress/src/allocation.rs:247-263 | Same for release |
| EgressAllocators.EgressAllocator.ReconcilePools | crates/unf-egress/src/allocation.rs:272-314 | Same for pool reconciliation, with the changed flag |
| EgressAllocators.EgressAllocator.RefileLease | crates/unf-egress/src/allocation.rs:414-444 | One checkpointed lease is filed exactly when it is sound, matches its pool and conflicts with nothing |
| EgressAllocators.EgressAllocator.Restore | crates/unf-egress/src/allocation.rs:132-166 | A checkpoint is restored whole or refused |
| EgressAcceptance.AllocateExactly | crates/unf-egress/src/allocation.rs:174-240 | A call is served exactly when the request is well formed, names a provider as its kind demands, and fits the lease its owner holds or can be granted: counters left, fewer than the limit of leases, and free addresses within the scan in every family |
| EgressAcceptance.AllocationCarriesRequest | crates/unf-egress/src/allocation.rs:174-240 | The lease carries the request's owner, policy, addresses, epoch and revision; a new one gets the next epoch and addresses nobody held, a held one keeps epoch, addresses, pool and provider; no other lease changes |
| EgressAcceptance.AllocateAgain | crates/unf-egress/src/allocation.rs:180-200 | The same request again returns the same lease and changes nothing |
| EgressAcceptance.TakeFamiliesExactly | crates/unf-egress/src/allocation.rs:392-401 | Planning succeeds exactly when every family has enough free addresses within the scan; those of one family never cost the other |
| EgressAcceptance.ReleaseExactly | crates/unf-egress/src/allocation.rs:247-263 | Release is served exactly for a held owner while revisions remain, and frees exactly its addresses |
| EgressAcceptance.ReconcileExactly | crates/unf-egress/src/allocation.rs:272-314 | Reconciling is served exactly for a valid pool list, changes only pools, and reports whether it did |
| EgressAcceptance.ReconcileContents | crates/unf-egress/src/allocation.rs:292-313 | A pool in use stays as it is; a listed one whose name is not in use comes in exactly if it shares no address with a pool in use; nothing else is there |
| EgressRuns.CheckpointRoundTrip | crates/unf-egress/src/allocation.rs:332-340 | Restoring a valid state's checkpoint returns that state if there are at most 64 pools with different UIDs and is refused otherwise |
| EgressRuns.RestorablePools | crates/unf-egress/src/lib.rs:355-395 | Of the pools an allocator can hold, pool validation accepts exactly at most 64 with different UIDs |
| EgressRuns.RestoredIsValid | crates/unf-egress/src/allocation.rs:414-444 | A restored allocator is valid if and only if the checkpoint's lease epochs all differ |
| EgressRuns.SharedEpochIsAccepted | crates/unf-egress/src/allocation.rs:414-444 | A checkpoint with two leases of one epoch that is restored, to an allocator that is not valid |
| EgressRuns.AllocatorInvariant | crates/unf-egress/src/allocation.rs:96-103 | Over every run from new: the index is the exact inverse of the leases, every lease matches its request, pools are disjoint, and granted epochs and revisions strictly grow |
| EgressRuns.HeldNeverRegresses | crates/unf-egress/src/allocation.rs:180-211 | Whenever an owner holds a lease again, its epoch and allocation revision have not gone back |
| EgressRuns.ReusedAddressIsNewer | crates/unf-egress/src/allocation.rs:174-240 | An address held at two points of any run is still its holder's, under the same epoch and no older revision, or was reused under a strictly larger epoch and revision, refreshes included |
| EgressRestarts.ReconcileThenRestore | crates/unf-egress/src/allocation.rs:272-314 | After a reconcile call the checkpoint restores to the same state exactly when few enough pools remain and no retained pool's UID is on another pool that stays or comes in, and is refused otherwise |
| EgressRestarts.ReconcileCanBlockRestore | crates/unf-egress/src/allocation.rs:292-313 | A run after which the checkpoint is refused: a retained pool beside a new one with its UID |
| EgressRestarts.CrowdCanBlockRestore | crates/unf-egress/src/allocation.rs:292-313 | A run after which the checkpoint is refused: 64 new pools beside a retained one |
| BgpTheorems.ConfigReplays | crates/unf-egress/src/bgp.rs:337-429 | A verified configuration is its own replay and its peer names are all different |
| BgpTheorems.SealedRoutes | crates/unf-egress/src/bgp.rs:555-605 | A sealed snapshot lists the given routes in strictly ascending prefix order |
| BgpAcceptance.SealedConfigVerifies | crates/unf-egress/src/bgp.rs:337-429 | Sealing a configuration orders its peers and exports, changes nothing else, and verifies to itself |
| BgpAcceptance.TamperedConfig | crates/unf-egress/src/bgp.rs:418-429 | A changed copy of a sealed configuration verifies exactly if only the order of its lists changed |
| BgpAcceptance.SealRouteExactly | crates/unf-egress/src/bgp.rs:436-547 | A route is sealed exactly for a unicast address inside the exports, of a family with next hop and peer, for this provider instance, with a proper owner, gateway and nonzero counters |
| BgpAcceptance.SealedRouteReplays | crates/unf-egress/src/bgp.rs:436-547 | A sealed route carries what was asked for, its family's next hop and a capsule over both, and replays |
| BgpAcceptance.OnlyExportsAreAdvertised | crates/unf-egress/src/bgp.rs:555-680 | Whatever snapshots a transaction is prepared from, every route it is to advertise is one that may be |
| BgpAcceptance.SealSnapshotExactly | crates/unf-egress/src/bgp.rs:555-605 | A snapshot is sealed exactly for replaying routes of different prefixes within the limit, and lists them in prefix order |
| BgpAcceptance.ReplayExactly | crates/unf-egress/src/bgp.rs:734-751 | A snapshot replays exactly if it is of this configuration, could be sealed, and its digest is of its own routes in order |
| BgpAcceptance.PrepareExactly | crates/unf-egress/src/bgp.rs:613-680 | A transaction is prepared exactly for two replaying snapshots of rising revision between which no prefix changes owner or lease epoch and no more routes change than allowed |
| BgpAcceptance.DeltaContents | crates/unf-egress/src/bgp.rs:641-680 | Every route of both snapshots is listed once, as added, retained or withdrawn by whether its prefix and digest are in the other, each list in prefix order |
| BgpTheorems.DeltaReachesDesired | crates/unf-egress/src/bgp.rs:613-680 | Retained and changed routes count both sides exactly, withdrawals are previous routes, additions are not, the change is within the budget, and previous minus withdrawals plus additions is desired exactly when routes of equal prefix and digest are equal |
| BgpTheorems.DeltaIsExact | crates/unf-egress/src/bgp.rs:567-680 | The delta of two accepted snapshots is exact if and only if their common routes store the same next hop and capsule, and always between routes as sealing produces them |
| BgpTheorems.NextHopChangeIsInvisible | crates/unf-egress/src/bgp.rs:567-680 | Any accepted route with another stored next hop is accepted again and retained, with an empty delta |
| BgpTheorems.OwnershipChangesOnlyThroughAbsence | crates/unf-egress/src/bgp.rs:634-640 | Along any chain of transactions a prefix listed in every snapshot keeps its owner and lease epoch |
| BgpTheorems.TransactionReplays | crates/unf-egress/src/bgp.rs:693-701 | Preparing again from a transaction's own snapshots reproduces it and its digest |
| BgpTheorems.ReadbackIsExact | crates/unf-egress/src/bgp.rs:687-726 | A prepared transaction's readback is accepted exactly when it is a permutation of the one expected list |
| BgpAcceptance.ExpectedExactly | crates/unf-egress/src/bgp.rs:703-726 | Each desired route is expected once, in the local table and advertised to exactly the peers that carry its family |
| BgpAcceptance.ReadbackOnlyOfPrepared | crates/unf-egress/src/bgp.rs:687-726 | Of any transaction, also a forged one, a readback is accepted only if preparing its own snapshots gives its digest again and the readback lists exactly the expected entries |
| Bfd.SessionsMatchPeers | crates/unf-egress/src/bfd.rs:111-150 | A sealed snapshot's sessions are, one for one and in order, the peers with BFD switched on, and no others |
| Bfd.SealIsIdempotent | crates/unf-egress/src/bfd.rs:174-184 | Sealing a sealed snapshot changes nothing and verifying one succeeds |
| Bfd.SealIgnoresOrder | crates/unf-egress/src/bfd.rs:115-117 | The order in which sessions are reported does not matter |
| Bfd.SealExactly | crates/unf-egress/src/bfd.rs:111-150 | A readback is sealed exactly for a verified configuration it names, a proper node, positive counters and one session of each peer with BFD switched on, and keeps its sessions |
| Bfd.TamperingShows | crates/unf-egress/src/bfd.rs:174-184 | A changed copy of sealed evidence verifies exactly if only the order of its sessions changed |
| DnsWire.EncodeQuery | bins/unf-agent/src/fqdn_observer.rs:253-273 | A query is produced exactly when every piece has 1 to 63 bytes and the message fits 512, and is header, pieces and question |
| DnsWire.ReadName | bins/unf-agent/src/fqdn_observer.rs:378-421 | Terminates on every byte string, reads in range, and computes the specified walk |
| DnsWire.PointerMeansTarget | bins/unf-agent/src/fqdn_observer.rs:385-397 | What reads through a compression pointer is the name at its target, ending just after the pointer |
| DnsWire.ReadInvertsEncode | bins/unf-agent/src/fqdn_observer.rs:378-421 | Reading back any name that encodes yields it in lower case if it is ASCII and fails if not |
| DnsWire.LowerCaseRoundTrip | bins/unf-agent/src/fqdn_observer.rs:402-407 | A lower-case ASCII name that encodes is read back unchanged |
| DnsWire.FollowChain | bins/unf-agent/src/fqdn_observer.rs:342-362 | Succeeds exactly when a chain exists: from the query, along the records, without repeats, to a name with no CNAME, within depth 16 |
| DnsWire.ParseResponse | bins/unf-agent/src/fqdn_observer.rs:275-376 | A response is accepted exactly when it answers the query, its records are readable and such a chain exists; the answers are the last name's addresses in order |
| DnsWire.AnswersAreCapped | bins/unf-agent/src/fqdn_observer.rs:363-371 | Every answer is an address record of the chain's last name and lives no longer than that record or any link of the chain |
| DnsResponses.PointerReadsTarget | bins/unf-agent/src/fqdn_observer.rs:385-397 | A compression pointer written for an offset reads as the name at that offset, for every offset the format can hold |
| DnsResponses.SelectsAllOfOwner | bins/unf-agent/src/fqdn_observer.rs:363-371 | Every address record of the chain's last name is answered once, in order, with the smaller of its own and the chain's time to live |
| DnsResponses.ChainTtlIsAttained | bins/unf-agent/src/fqdn_observer.rs:342-362 | The chain's time to live is that of one of its links, or the largest value if it has none |
| DnsResponses.QuestionExactly | bins/unf-agent/src/fqdn_observer.rs:275-300 | A message is taken up exactly if it has the query's identifier, the flags of an answer or of no such name, one question equal to the query's, and at most 128 records; reading goes on right after the question |
| DnsResponses.ResponseRoundTrip | bins/unf-agent/src/fqdn_observer.rs:275-341 | From a complete response exactly what its records say is read, in order, skipping records of other kinds and classes; it is refused whole exactly if a name is an alias twice |
| DnsResponses.EchoIsRefused | bins/unf-agent/src/fqdn_observer.rs:253-285 | A query asks one question and wants recursion; sent back as it is, it answers no query |

## Left out

- Legacy journal migration, file modes, symlink checks, temporary names and fsync order: only "the rename is atomic and the write may fail before or after it" is kept.
- Sockets, HTTP, tokio tasks, timeouts, STATUS leases, Kubernetes types and command-line tools.
- SHA-256, JSON encoding and the derivation of host interface names: the interface name is an arbitrary function of the key.
- Routes and addresses on links: the kernel drops them with the link, so only links are tracked; whether a plan can be built from a record is an arbitrary predicate.
- Gateway and prefix length inside an attachment lease: fixed by the node block.
- CHECK in the plugin beyond its drain; its journal side is in JournalAcceptance.CheckExactly.
- HealthyCommands.AddSucceedsExactly: for an agent that serves, nonces that are nonzero and unused, and nothing queued on the network; draining is stated by DeferredDeletes.DrainDeferredDeletes, failing answers by the lemmas over all runs.
- DeleteOutcomes.DeleteSucceedsExactly: the same.
- LocalityPublication.RefreshSelects: which records the placement names is an arbitrary set of keys; a record whose workload differs from its placement is a failed refresh, and the size budget of a selection is left out.
- ConcurrentDurability.InterleavedDeleteIsDurable: stated for runs without late requests.
- LocalitySafety.LiveEndpointsAreReady: the poisoned flag of the admission is not modelled, so the run has more behaviours than the code; applied context and placement digest are one number.
- Packet programs, namespace observation and sealing of the locality bank: an observation either yields the selected records or drops the candidate.
- EncryptionSafety.ConfigNamesExactBank: the synchronizer itself is steps on values, because a crash can fall between any two of its effects; only bank reconciliation and the bridge are in the code's own loop form. Reloading a checkpoint file after a failed application is taken to succeed, and the pinned maps survive the agent but a host reboot is not modelled.
- Route, path and duplex proofs, controller distribution and lowering of map entries: an admitted generation carries its image.
- EgressSafety.NormalRequestIsNormal: of an intent only the owner and the address request are modelled; priority, selectors and destinations are one value already in normal form.
- EgressRuns.AllocatorInvariant: a restart restores the checkpoint of the state it left; restoring an older checkpoint can reissue epochs.
- BgpAcceptance.ReplayExactly: the schema version and algorithm fields of sealed values are constants and not modelled.
- Bgp.ValidBody: AS numbers, hop limits, graceful restart and BFD timers are values taken to be within their bounds.
- Bfd.Seal: session states, diagnostics and counters are one value.
- DnsWire.ParseResponse: transport, retries and refresh scheduling are not part of this model.
- The desired-state store, gateway placement, reachability plans, high availability, flow export and policy compilation: not part of this model.
