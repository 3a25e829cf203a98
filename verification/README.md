# Family Connect: a verified model

The project models the parts of Family Connect whose correctness rests on ordering, crashes and
repetition, and proves what they promise over every run.

**Fleet.** A controller database leases tunnel addresses on gateways (`FleetTypes`, `FleetRegistry`,
`FleetStore`, `FleetAllocation`, `FleetDatabase`). A worker turns leases into commands; each gateway
keeps a journal that records the intent before it touches its peer table (`FleetPeers`,
`FleetGateway`, `FleetWorker`; `Options` is shared by all). `FleetEffects` says exactly when each store
transaction is accepted and what it then changes. `FleetProtocol` puts store, network, journals and peer tables into one
transition system: commands and receipts may be delayed, repeated, reordered or lost, an execution
may stop after its intent, after its effect or before its receipt, peer tables may lose entries, and
others may edit peers whose key no journal row holds. `FleetProgress` shows which of its runs get
leases installed and released. `FleetPublish` issues signed configurations.

**Messenger.** A sender's outbox with attempts and openings, the relay's spool with quotas and a token
bucket, and a recipient that commits before it purges (`ChatTypes`, `ChatStore`, `Spool`, `RateLimit`,
`Mailbox`); `Messenger` is the transition system of all users and the relay, and `Attempts` follows the
callbacks of attempts through its runs, `Receipts` the storage receipts, and `Outbox` the
schedule, the end of messages and the service notices. `History` folds edits, `Delivery` is the worker loop.

**Rehearsal.** `Rehearsal` is the journalled deployment of one node, where every call into the runtime
and every write may fail or kill the process before or after taking effect. `RehearsalProgress` says when
its requests succeed, and where an active bundle comes from.

**Codec and subscription.** `OggCrc` and `OggFinaliser` are the Ogg page checksum and the finaliser of
voice recordings (section 6 of RFC 3533, section 5.1 of RFC 7845). `Subscription` decodes and stores
confirmed subscriptions; `SubscriptionEvidence` says exactly which evidence it takes.

Each state-changing class is proved against functions of its old state; the theorems over runs are
about those functions. Three promises turn out to need a condition, and the model says which:

- A publication may outlive a grant that is shortened later: after any history with a row that still
  lasts, cutting its device's grant short is accepted and leaves the row outliving it
  (`PublicationCanOutliveGrant`). A row does so only under a later grant than its own and when its lease
  is no longer live, and from then on nothing of that lease can be fetched (`OutlivingIsWithdrawn`).
- `Chat.queue` packs whatever fields its caller passes. If a caller queued a receipt for a message its
  store lacks, the addressee would show that message as stored (`QueuedReceiptCanLie`). The runs of
  `Messenger` therefore let a caller queue a receipt only for a message its own store has; the callers
  in `messenger/local.py` never queue one at all.
- A recovery drain that is itself interrupted leaves two open journals. No request is admitted after
  that (`InterruptedRecoveryBlocksForGood`, `HaltedForGood`).

Assumptions: hashes and random identifiers do not collide, so a digest is modelled by the value it
digests; signatures cannot be forged; database transactions and file replacement are atomic; the
limiter's clock arithmetic is over real numbers.

## Model

| member | source | states |
|---|---|---|
| FleetRegistry.FreeAddressExists | control/fleet.py:74-79 | The pigeonhole behind the capacity rule: with fewer used addresses than hosts, a host address is left |
| FleetRegistry.FirstFreeAddress | control/fleet_store.py:277-284 | The search returns the lowest free host address, nothing exactly when all hosts are used, and never nothing below the pool's capacity |
| FleetRegistry.AddSockets | control/fleet.py:119-134 | Adding sockets one by one fails exactly when a socket repeats, and otherwise leaves the set of all of them |
| FleetRegistry.CheckGateways | control/fleet.py:119-129 | One pass accepts exactly the gateway lists with disjoint pools and distinct sockets |
| FleetRegistry.CheckInventory | control/fleet.py:114-135 | The validator accepts exactly the registries with distinct IDs, disjoint pools and distinct sockets across gateways and ingresses |
| FleetRegistry.HostsDisjoint | control/fleet.py:114-135 | In a valid registry no address lies in the pools of two gateways |
| FleetStore.UpdateRetains | control/fleet.py:155-173 | An accepted update keeps every gateway with its pool and failure domain |
| FleetStore.InstallRegistryKeeps | control/fleet_store.py:171-190 | A registry update keeps the whole store invariant and only moves leases forward |
| FleetStore.InstallRegistryPlaces | control/fleet_store.py:171-190 | After an update each lease still sits on a host of its gateway's pool, with pinned endpoints until released, and a live one on an operating gateway |
| FleetStore.SetAccessKeeps | control/fleet_store.py:192-223 | A new grant keeps the invariant, so no live lease is left outside its grant, and keys stay bound to their devices |
| FleetStore.ReserveKeeps | control/fleet_store.py:234-292 | A reservation, new or repeated, keeps the invariant, so the new lease is placed, covered and unique, and no lease goes back |
| FleetStore.SlotFits | control/fleet_store.py:273-284 | The address picked is a host of the gateway's pool that no unreleased lease there has, for a device it does not serve |
| FleetStore.NewLeaseFits | control/fleet_store.py:286-289 | A new lease is well placed, its gateway offers its transport and version, and it violates none of the three partial unique indexes |
| FleetStore.MarkReadyKeeps | control/fleet_store.py:328-339 | Marking ready keeps the invariant and moves leases only forward |
| FleetStore.ConfirmRemovedKeeps | control/fleet_store.py:370-384 | Confirming a removal keeps the invariant and moves leases only forward |
| FleetStore.RetirementKeeps | control/fleet_store.py:350-368 | Retiring any set of leases keeps the invariant and moves leases only forward |
| FleetAllocation.AnyStepKeeps | control/fleet_store.py:171-384 | Every transaction, accepted or refused, keeps the invariant; leases keep their terms and never go back |
| FleetAllocation.RunKeeps | control/fleet_store.py:171-384 | The invariant holds after every sequence of transactions |
| FleetAllocation.AddressesNeverShared | control/fleet_store.py:84-86 | In every reachable state two unreleased leases, on whatever gateways, have different addresses, each a host of its pool |
| FleetAllocation.CapacityMeansAddress | control/fleet_store.py:273-284 | A gateway has an address for a device if and only if it is below its device limit and does not serve the device: the search itself never fails |
| FleetAllocation.NoCapacityExactly | control/fleet_store.py:273-292 | A new authorised request is refused for capacity if and only if every ranked gateway is full or serves the device already |
| FleetAllocation.LeasesStayCovered | control/fleet_store.py:171-223 | Every reachable live lease has an unrevoked grant at least as long, on an active or draining gateway; until release the gateway's endpoints are those of the lease's own snapshot |
| FleetAllocation.RetriedRequestIsHistorical | control/fleet_store.py:246-253 | Repeating a request returns the same lease whatever became of it and changes no lease; a changed request is a conflict |
| FleetDatabase.LeaseDatabase.InstallRegistry | control/fleet_store.py:171-190 | The loop over gateways does exactly the update, or refuses and changes nothing |
| FleetDatabase.LeaseDatabase.PlanUpdate | control/fleet_store.py:178-188 | Finds an endpoint change under an unreleased lease if there is one, else exactly the leases of halted gateways |
| FleetDatabase.LeaseDatabase.SetAccess | control/fleet_store.py:192-223 | The new rows, or a refusal that changes nothing |
| FleetDatabase.LeaseDatabase.Allocate | control/fleet_store.py:271-284 | The first ranked gateway with room for the device, with its lowest free address |
| FleetDatabase.LeaseDatabase.Reserve | control/fleet_store.py:234-292 | The new rows of the specified reservation, the historical lease, or a refusal that changes nothing |
| FleetDatabase.LeaseDatabase.FetchWork | control/fleet_store.py:306-326 | Work for the exact generation with the lease's own gateway snapshot; a removal needs no authorisation |
| FleetDatabase.LeaseDatabase.MarkReady | control/fleet_store.py:328-339 | Ready for the exact generation of a live authorised lease, else unchanged |
| FleetDatabase.LeaseDatabase.RetireRows | control/fleet_store.py:350-355 | Retires exactly the live rows among those named, raising their generation once |
| FleetDatabase.LeaseDatabase.RetireLease | control/fleet_store.py:357-359 | One lease retired, or refused |
| FleetDatabase.LeaseDatabase.ExpireLeases | control/fleet_store.py:361-368 | Retires the overdue leases that end first, as many as the limit allows, and no other |
| FleetDatabase.LeaseDatabase.ConfirmRemoved | control/fleet_store.py:370-384 | Released only from retiring at the exact generation |
| FleetEffects.ReservationAdds | control/fleet_store.py:234-292 | A successful fresh reservation adds exactly one lease, with the device, country, transport and version asked for, the latest registry and the grant's revision, reserved at generation 1 now, ending after its lifetime or with the grant if that is sooner; nothing else but the clock and the request's ticket changes |
| FleetEffects.ReservationIsFirstFit | control/fleet_store.py:271-289 | The new lease is on the first ranked gateway below its limit that does not serve the device, at the lowest host address no unreleased lease there has |
| FleetEffects.ReservationExactly | control/fleet_store.py:234-292 | A fresh request is granted if and only if it is well formed, names the latest registry, the device's grant is in force and its lease limit not reached, it has no unreleased lease of that country, transport and version, and some gateway that passes admission can take it |
| FleetEffects.AccessExactly | control/fleet_store.py:192-223 | A grant is recorded if and only if it is within limits and in order; it replaces that device's grant and retires exactly the leases it no longer covers |
| FleetEffects.RegistryExactly | control/fleet_store.py:171-190 | An update is taken if and only if it is valid, retains what is known and changes no endpoint under an unreleased lease; it retires exactly the live leases of halted gateways |
| FleetEffects.WorkExactly | control/fleet_store.py:306-326 | Work is given out if and only if the generation is current and the lease is retiring, or reserved within its own time and its grant's; with the lease's key and own gateway snapshot |
| FleetEffects.ReadyExactly | control/fleet_store.py:328-339 | Ready is accepted if and only if the lease is live at that generation, within its own time and its grant's; only its state changes |
| FleetEffects.RetireExactly | control/fleet_store.py:357-359 | Retiring a known lease is always accepted, and changes a live one only, to retiring one generation on |
| FleetEffects.RemovalExactly | control/fleet_store.py:370-384 | A removal is confirmed if and only if the lease is no longer live at that generation; only its state changes |
| FleetEffects.ExpiryLeavesNoneOverdue | control/fleet_store.py:361-368 | A batch with every overdue lease leaves no live lease past its end or outside its grant |
| FleetPeers.ReadPeers | control/fleet_wg.py:38-46 | The listing as a map, refused exactly when a key repeats |
| FleetPeers.WGPeerBackend.CheckConflicts | control/fleet_wg.py:48-55 | The scan finds exactly the conflicts of the command with the live table |
| FleetPeers.WGPeerBackend.Ensure | control/fleet_wg.py:66-85 | Success means the peer is exactly as asked and no other moved; on any failure at most this peer moved |
| FleetGateway.AdmittedKeepsJournal | control/fleet_gateway.py:143-179 | Wherever an execution stops, held rows keep distinct addresses and keys |
| FleetGateway.FencedGateway.Execute | control/fleet_gateway.py:132-179 | Refusals and replays change nothing; otherwise intent first, then effect, then done; without fault or live conflict an admitted command is answered with its receipt; a receipt means the journal holds this very command as done |
| FleetGateway.FencedGateway.RecoveryOrder | control/fleet_gateway.py:188-189 | Exactly the pending rows, removals first and then by lease |
| FleetGateway.SettleOne | control/fleet_gateway.py:181-190 | Redoing one more pending row extends what recovery has settled and disturbs nothing settled before |
| FleetGateway.FencedGateway.Recover | control/fleet_gateway.py:181-190 | From any sound journal and any peer table, a normal return leaves the managed peers exactly those of the install rows, every pending removal done and unheld, and all other peers unchanged; with a steady clock, no fault, no live conflict and no expired install it does return normally |
| FleetProtocol.StepKeeps | control/fleet_gateway.py:143-179 | Every step of store, network, gateways and receipts keeps the joint invariant |
| FleetProtocol.ReachableInv | control/fleet_gateway.py:143-179 | The joint invariant holds in every state of every run |
| FleetProtocol.LivePeerIsLeased | control/fleet_wg.py:66-85 | In every run a live peer put there by a lease is backed by that unreleased lease, with its exact key and address |
| FleetProtocol.ReleasedStays | control/fleet_store.py:370-384 | A released lease stays released |
| FleetProtocol.ReleasedNeverLive | control/fleet_store.py:370-384 | From the moment the store marks a lease released, its peer is live through it on no gateway, and every entry of every peer table is foreign or the install of another, unreleased lease of that gateway |
| FleetProtocol.ReleasedIsGone | control/fleet_store.py:370-384 | In every run a released lease leaves no entry with its key on its gateway, unless the device has another lease there or someone else wrote the entry |
| FleetProtocol.ForeignWasWritten | control/fleet_wg.py:48-64 | An entry counts as foreign only if it was in the table at the start or someone else wrote it |
| FleetProtocol.LivePeersApart | control/fleet_gateway.py:92-93 | In every run two live peers of a gateway belong to different leases and share neither key nor address |
| FleetProtocol.PeerRemovedOnlyByItsLease | control/fleet_gateway.py:143-179 | In every run a lease's live peer goes away only by that lease's own removal or by the engine losing it, so a replayed old removal never takes a reused key down |
| FleetProtocol.ReadyMeansJournalled | control/fleet_store.py:328-355 | Whenever the store shows a lease ready, the gateway's journal holds its exact address and key at generation 1 |
| FleetProtocol.IssuedCommandNeverClashes | control/fleet_gateway.py:144-171 | An issued command is never refused as resource-owned or conflicting, and a stale answer means the same binding is already journalled at generation 2 |
| FleetProtocol.HeldElsewhereIsApart | control/fleet_store.py:84-86 | The store's uniqueness over unreleased leases implies the gateway's over held rows at every delivery |
| FleetProgress.InstallIntentIsTimely | control/fleet_gateway.py:143-165 | Whatever the step, an install is newly journalled as intended only by an execution that read the clock before the command's expiry and not behind the gateway's last time |
| FleetProgress.LivePeerWasTimely | control/fleet_gateway.py:143-165 | In every run, behind every managed peer is an earlier step that began its install, for that lease and key, before the expiry |
| FleetProgress.DeliveredVerdict | control/fleet_gateway.py:143-171 | An issued command at its own free gateway, in time, not overtaken and not obstructed by a foreign peer, is never refused: replayed if done, recorded if there is nothing to remove, else carried out, with no live conflict |
| FleetProgress.DeliveredIsCarriedOut | control/fleet_gateway.py:143-179 | It is then answered with a receipt, and the table is as it asks: an install's peer is live with the lease's key and its one host address, a removal is fenced |
| FleetProgress.DeliveryContinues | control/fleet_gateway.py:143-179 | So in every reachable state the run can go on in that way |
| FleetProgress.ReservedCanBecomeReady | control/fleet_worker.py:22-44 | In every reachable state a reserved lease within its own time and its grant's, on a gateway that can be reached, has a run that makes it ready and changes nothing else in the store but its clock |
| FleetProgress.RetiringCanBeReleased | control/fleet_worker.py:22-44 | In every reachable state a retiring lease on a gateway that can be reached has a run that releases it, whatever became of its grant and its time |
| FleetWorker.Worker.Process | control/fleet_worker.py:22-44 | The store learns ready only when the journal shows the install, released only when it shows the finished removal; it does so exactly when the work is due, the gateway answers and the store confirms; otherwise no lease changes |
| FleetPublish.KeyNeverCollides | control/fleet_publish.py:40-46 | A stored row of the current access revision is the newest of its lease, so a new row meets no existing key |
| FleetPublish.StoreStepKeepsIssued | control/fleet_store.py:192-223 | Store transactions never disturb what has been published |
| FleetPublish.PublishKeepsIssued | control/fleet_publish.py:73-80 | A publish adds at most one row and never lowers a counter |
| FleetPublish.RevisionsStrictlyIncrease | control/fleet_publish.py:54-55 | Across all leases of a device, a later new publication has a higher revision than any earlier answer |
| FleetPublish.RepublishIsIdentical | control/fleet_publish.py:40-46 | Publishing again for the same lease and access revision returns the same bytes and adds nothing |
| FleetPublish.PublicationWithinLease | control/fleet_publish.py:62-66 | No publication outlives its lease, nor the current grant while the lease is live or the grant is the one it was issued under |
| FleetPublish.RetrievedIsInForce | control/fleet_store.py:444-456 | What a device can fetch was made for its lease, with that lease's gateway, address and transport and the device's key, and ends with both lease and grant |
| FleetPublish.PublishedCanBeFetched | control/fleet_store.py:444-456 | In every history what was published can be fetched, byte for byte, while the lease is ready and the grant it was published under is in force |
| FleetPublish.ReadyCanBePublished | control/fleet_publish.py:25-82 | In every history a ready lease in force with no publication yet and one matching endpoint can be published in time by the authority, and the result can be fetched |
| FleetPublish.OutlivingIsWithdrawn | control/fleet_store.py:192-223 | In every history a row outlives the current grant only when its access revision is superseded and its lease is not live, and from then on nothing of that lease can be fetched |
| FleetPublish.PublicationCanOutliveGrant | control/fleet_store.py:192-223 | After any history with a stored row that still lasts, cutting the grant short is accepted, extends the history, and leaves the row stored and outliving the grant |
| FleetPublish.Publisher.Newest | control/fleet_publish.py:40-40 | The row of the highest revision of the lease, if it has one |
| FleetPublish.Publisher.Compose | control/fleet_publish.py:47-75 | A new row exactly when one endpoint matches, the counter has room and the signature came in time |
| FleetPublish.Publisher.Publish | control/fleet_publish.py:25-82 | Succeeds exactly when every check passes, with the stored bytes or one new row; a failure changes nothing |
| Spool.BatchBounded | messenger/relay.py:101-120 | An answer stays within its budget and holds only wanted, stored ciphertexts of that recipient |
| Spool.BatchComplete | messenger/relay.py:101-120 | A wanted, stored ciphertext of the recipient is in the answer, unless it no longer fits the budget |
| Spool.BatchDistinct | messenger/relay.py:101-120 | No ciphertext is in an answer twice |
| Spool.FreshExactly | messenger/relay.py:71-73 | Expiry removes exactly the rows at or before the cutoff |
| Spool.PurgedExactly | messenger/relay.py:101-120 | A purge removes exactly the recipient's own row of that ciphertext |
| Spool.PutExactly | messenger/relay.py:80-99 | An upload of a proper size is accepted if and only if it is the sender's own again, or new and within every quota; it is full if and only if it is new and some quota would not hold with it |
| Spool.QuotasAlwaysHold | messenger/relay.py:80-99 | From an empty spool the total and per-sender limits on count and bytes hold after every sequence of operations, and no ciphertext is stored twice |
| Spool.CipherSpool.Expire | messenger/relay.py:71-73 | Drops exactly the expired rows |
| Spool.CipherSpool.Put | messenger/relay.py:80-99 | Accepts within every quota; a repeat by the same sender is accepted without a second row |
| Spool.CipherSpool.Get | messenger/relay.py:101-120 | Purges what the recipient has, then answers what it wants within the budget |
| RateLimit.SpentIsCovered | messenger/relay.py:149-157 | Tokens spent plus the level left never exceed the starting level plus the time gone by |
| RateLimit.UploadsBounded | messenger/relay.py:149-157 | While an identity stays admitted, at most four plus the elapsed seconds of its uploads pass, whatever others do |
| RateLimit.ModestIsNeverRefused | messenger/relay.py:149-157 | Over every history in clock order, an identity that from any of its visits to any later one asks at most four times plus once a second gets all its uploads through, whatever others do |
| RateLimit.IdleSecondPasses | messenger/relay.py:149-157 | Over every history in clock order, an identity whose visits all lie at least a second back gets its next upload through |
| RateLimit.Limiter.Take | messenger/relay.py:149-157 | The bucket update and the verdict of one visit |
| ChatStore.QueueKeeps | messenger/chat.py:39-52 | Queueing keeps the store sound and undoes nothing |
| ChatStore.BeginKeeps | messenger/store.py:336-347 | Claiming a message keeps the store sound and undoes nothing |
| ChatStore.RelayBlobKeeps | messenger/store.py:349-362 | The ciphertext answered is the one the record keeps from then on |
| ChatStore.FinishKeeps | messenger/store.py:364-378 | Ending an attempt keeps the store sound and undoes nothing |
| ChatStore.ExpireKeeps | messenger/store.py:314-334 | Expiring the outbox keeps the store sound and undoes nothing: a confirmed message stays confirmed |
| ChatStore.AcceptReceiptKeeps | messenger/store.py:173-183 | An accepted receipt shows its target as stored by the recipient |
| ChatStore.CommitKeeps | messenger/store.py:139-171 | A commit puts the message on record, with its receipt when one is due, keeps the store sound and undoes nothing |
| ChatStore.ReceiveKeeps | messenger/chat.py:54-77 | A message that is not rejected is durable on return, was genuine and addressed here, and nothing is undone; `Receipts` adds when that is and the receipt it leaves |
| Messenger.StepKeeps | messenger/store.py:314-378 | Every step of the messenger keeps the joint invariant, and no store goes back |
| Messenger.ReachableInv | messenger/store.py:314-378 | The invariant holds in every run |
| Messenger.NothingIsLost | messenger/relay.py:80-120 | At every moment of every run an accepted ciphertext is in the spool, committed by its recipient, or past retention |
| Messenger.RelayedIsNotLost | messenger/mailbox.py:105-144 | In particular a message its sender shows as relayed |
| Messenger.LeavesOnlyWhenTakenOrExpired | messenger/mailbox.py:105-144 | A ciphertext leaves the spool only by retention or by its own recipient's purge after that recipient committed the message |
| Messenger.StoredIsTrueForGood | messenger/store.py:139-183 | A message shown as stored by the recipient is in that recipient's store, and the status is never left |
| Messenger.BytesNeverChange | messenger/store.py:336-378 | Across attempts, crashes and openings the signed bytes and the ciphertext never change, and each store files a message once |
| Messenger.OneAttemptInFlight | messenger/store.py:336-347 | At most one attempt of the current opening is in flight for a message |
| Attempts.StaleCallbackIsIgnored | messenger/store.py:364-378 | In every run a callback of an attempt that already had one, or of an opening before the current one, changes no store |
| Attempts.ReachableTokens | messenger/store.py:336-378 | In every run each token a record shows was issued, only issued attempts finish, and a finished attempt is never current again |
| Attempts.OpeningsMoveOn | messenger/store.py:336-347 | In every run, once a store is opened anew, no token issued before is of the current opening again |
| Receipts.ReceiveExactly | messenger/chat.py:54-77 | A message is taken in if and only if it is genuine, addressed here, from someone this kind is taken from, its event in time, and there is room for it and the receipt owed; a receipt if and only if it is for our message to its author |
| Receipts.ReceiptIsQueued | messenger/store.py:139-171 | After a durable store takes in a message, the record of that message names its receipt: our own outgoing message to the author for this very message, queued if new, and queued again if known unless it is being sent |
| Receipts.EveryMessageHasItsReceipt | messenger/store.py:139-171 | In every run, every message from a peer in a durable store has that receipt on record, signed, never expired or confirmed, and free to be sent unless it was delivered or is being sent |
| Receipts.MessageCanBeTaken | messenger/mailbox.py:105-197 | In every reachable state a message that can be sent to a durable recipient that can take it has a run through the relay in which it is taken in with its receipt |
| Receipts.ReceiptCanConfirm | messenger/store.py:173-183 | In every reachable state the receipt on a recipient's record can confirm the message to an author who knows the recipient |
| Receipts.MessageCanBeConfirmed | messenger/mailbox.py:105-197 | So there is a run in which the message ends shown as stored by a recipient that has it |
| Outbox.EndedAttempt | messenger/store.py:364-378 | The end of the current attempt leaves the message delivered, queued again at once, or relayed; a relayed one that must be stored is due again after 1, 2, 4, 8, 16, 32 and then 60 minutes, any other never; no other message changes |
| Outbox.ListedIsDue | messenger/store.py:314-347 | In every run exactly the queued messages, those left in flight by an earlier opening and the relayed ones past their wait are listed, and each can be claimed at once |
| Outbox.GivenUpInTime | messenger/store.py:314-334 | Over every run a message composed in a durable store is confirmed, delivered or expired at the first look at the outbox after a week, or after its event's end if that is sooner |
| Outbox.GivenUpWasOverdue | messenger/store.py:314-334 | Over every run a message expires only at a look at the outbox after its own time |
| Outbox.NoticeIsNewest | messenger/store.py:139-157 | In every run, for every service message taken in, the notice under its publisher and ID is that event or a newer one, itself taken in from that publisher |
| Messenger.QueuedReceiptCanLie | messenger/chat.py:39-52 | Without the callers' restraint, a queued receipt makes the addressee show as stored a message the sender of the receipt lacks |
| Mailbox.MessageStore.Add | messenger/store.py:106-125 | A record is added once, or refused when the history is full |
| Mailbox.MessageStore.BeginAttempt | messenger/store.py:336-347 | Claims a queued message under a fresh token of this opening, or nothing |
| Mailbox.MessageStore.RelayBlob | messenger/store.py:349-362 | The stored ciphertext, or the first one made, kept |
| Mailbox.MessageStore.FinishAttempt | messenger/store.py:364-378 | Only the attempt the record shows can end it |
| Mailbox.MessageStore.PendingOutbox | messenger/store.py:314-334 | Overdue messages expire; exactly those waiting are listed |
| Mailbox.MessageStore.CommitReceived | messenger/store.py:139-171 | Message, notice and receipt together, or nothing at all |
| Mailbox.MessageStore.Receive | messenger/chat.py:54-77 | What is accepted is committed as specified, receipt included, and reported new exactly when it was; what is rejected changes nothing |
| Mailbox.Sync | messenger/mailbox.py:105-144 | One round: the first ten distinct listed ciphertexts are asked for; the batch is taken in one by one; what is purged is exactly what was taken in; the counters add up; it fails only on an improper answer, and then purges nothing; another round follows only a purge that left some |
| Mailbox.TakeBatch | messenger/mailbox.py:115-134 | The store after the batch is that of receiving each ciphertext in turn; exactly those taken in are handed back for purging; the counters add up; it fails only on an unwanted, repeated or wrongly sized ciphertext, and then hands back none |
| Mailbox.Wanted | messenger/mailbox.py:109-109 | The first ten distinct listed ciphertexts, all of them when there are fewer than ten |
| Mailbox.Publish | messenger/mailbox.py:182-197 | Sends the one kept ciphertext, exactly when the message can be claimed and a ciphertext can be had; ends relayed exactly on a confirming answer, else queued again, with no attempt left |
| History.WinnerIsHighest | messenger/store.py:214-223 | The winning edit applies and has the highest revision |
| History.OrderDoesNotMatter | messenger/store.py:214-223 | With distinct revisions, any order of arrival shows the same text, revision and status |
| History.VisibleShowsHighestEdit | messenger/store.py:214-223 | With distinct revisions, a non-audio message shows its highest edit, even one that arrived first |
| History.VisibleShowsOwnText | messenger/store.py:214-223 | A message no edit applies to shows its own text |
| History.VisibleIsComplete | messenger/store.py:214-223 | Every message is shown in exactly one place, and nothing else is shown |
| History.VisibleMessages | messenger/store.py:214-223 | The two passes of the store compute that history |
| Delivery.VisibleIsCurrent | messenger/delivery.py:115-120 | Over any interleaving the exchange a visible result came from ran in the current generation |
| Delivery.VisibleWasExchanged | messenger/delivery.py:115-120 | Over any interleaving a visible result is the outcome of an earlier exchange, and no lifecycle change came since that exchange started |
| Delivery.StartsAreSpaced | messenger/delivery.py:89-127 | Consecutive attempts start at least one cooldown apart |
| Delivery.EventsAreNotLost | messenger/delivery.py:38-66 | An event stays pending until an exchange starts after it or the worker is closed |
| Delivery.FailuresStop | messenger/delivery.py:118-126 | With no further events, failing attempts stop after at most one more than the retry limit |
| Delivery.BackoffDoubles | messenger/delivery.py:125-126 | The wait is one cooldown after the first failure and doubles with each further one, up to the limit |
| Delivery.EndedIsFollowedUp | messenger/delivery.py:115-127 | In every run an exchange of the current generation is shown as it ended; more to come, or a transient failure with retries left, leaves work pending, and nothing else does; the next start waits one cooldown after a success and the doubled wait after a failure |
| Delivery.StaleIsDropped | messenger/delivery.py:115-127 | The outcome of an overtaken exchange is dropped, and what is pending stays so |
| Delivery.TransientIsRetried | messenger/delivery.py:89-127 | In every run, after a transient failure with retries left, the next exchange can start at any moment after the wait at which the worker is online and in the foreground, unless one started or it was closed |
| Delivery.DeliveryController.Update | messenger/delivery.py:38-56 | A changed lifecycle value starts a new generation, clears the result and leaves work pending |
| Delivery.DeliveryController.RequestSync | messenger/delivery.py:58-66 | Work is pending; backoff and failures stay |
| Delivery.DeliveryController.Close | messenger/delivery.py:75-87 | Closed, with nothing pending and no result visible |
| Delivery.DeliveryController.Start | messenger/delivery.py:90-105 | The first critical section, taken exactly when work is pending, allowed and due |
| Delivery.DeliveryController.End | messenger/delivery.py:115-127 | The second: the result unless stale, the retry and the backoff |
| Rehearsal.MoveKeepsSound | fleet/rehearsal_state.py:137-254 | A successful action leaves a state that tells the truth about the runtime pointer |
| Rehearsal.RollbackIsSound | fleet/rehearsal_state.py:107-123 | A rollback makes the accepted predecessor active again or leaves nothing running; the branch that records a verified state is unreachable |
| Rehearsal.ServesKeepsFits | fleet/rehearsal_state.py:50-135 | Whatever a request does, and wherever it dies, the record stays true unless an operation is interrupted |
| Rehearsal.RunFits | fleet/rehearsal_state.py:50-135 | So it is in every run |
| Rehearsal.FailureIsUndoneOrFenced | fleet/rehearsal_state.py:107-123 | In every run a failed operation left everything as it was, made the accepted predecessor active again, left nothing running where there was none, or fenced the node for good |
| Rehearsal.InterruptedBlocks | fleet/rehearsal_state.py:66-76 | In every run, while an operation is interrupted, everything but the drain that names it is refused or replayed and changes nothing |
| Rehearsal.DeathBlocks | fleet/rehearsal_state.py:85-135 | In every run a death left the node as it was, or its operation finished and closed, or open under its own request, which blocks everything but the drain that names it |
| Rehearsal.InterruptedRecoveryBlocksForGood | fleet/rehearsal_state.py:66-76 | With two interrupted journals no request can follow |
| Rehearsal.HaltedForGood | fleet/rehearsal_state.py:77-79 | In every run a fenced, retired or twice interrupted node never changes again |
| Rehearsal.ReceiptsAreFinal | fleet/rehearsal_state.py:60-65 | In every run a finished operation keeps its receipt, and an interrupted one its request until a drain recovers it |
| Rehearsal.ActiveWasAccepted | fleet/rehearsal_state.py:149-170 | In every run, while nothing is interrupted, an active node's pointer is its recorded bundle, and an earlier request presented that bundle's matching all-pass receipt |
| RehearsalProgress.CalmRequestIsDecided | fleet/rehearsal_state.py:50-135 | In every run a new request to an open node, none of whose calls fails, is answered: it fails if and only if the action's own condition on phase, bundle, receipt, times and health does not hold, and what it leaves is then fixed; otherwise it makes its move |
| RehearsalProgress.AcceptanceVerifies | fleet/rehearsal_state.py:149-173 | In every run a signed all-pass receipt for the open challenge, inside its window and with unchanged health, ends in the verified state, with that health, time and the receipt's end on record |
| RehearsalProgress.CalmDrainRecovers | fleet/rehearsal_state.py:66-76 | In every run the matching drain of an interrupted operation, none of whose calls fails, ends the interruption |
| RehearsalProgress.ActiveHasItsReceipt | fleet/rehearsal_state.py:149-170 | In every run, behind an active bundle stand an earlier request that opened a challenge for it and a later one with a signed all-pass receipt of the same bundle, operation, nonce and health, issued within the challenge's window for at most five minutes and used before its end |
| RehearsalProgress.BundleCanBecomeActive | fleet/rehearsal_state.py:137-242 | From every reachable open node with nothing running, every bundle can be staged, started, accepted and made active while challenge, receipt and health last |
| Rehearsal.RehearsalNode.Apply | fleet/rehearsal_state.py:137-242 | Success makes exactly the action's move; when no call fails, it succeeds exactly when the action is allowed; a failure leaves the state as it was and reports whether the pointer may have moved |
| Rehearsal.RehearsalNode.Begin | fleet/rehearsal_state.py:194-224 | A replacement ends awaiting acceptance of the new bundle with a fresh challenge |
| Rehearsal.RehearsalNode.Complete | fleet/rehearsal_state.py:149-173 | Verified only on a matching receipt with every step passed and unchanged local health, and always then when no call fails; a receipt that declines asks for the rollback |
| Rehearsal.RehearsalNode.Operate | fleet/rehearsal_state.py:87-123 | A finished operation made exactly its move, or failed with nothing touched, the predecessor restored, or the node fenced; when no call fails, it fails only if not allowed; a death leaves the pointer where the action may put it |
| Rehearsal.RehearsalNode.Commit | fleet/rehearsal_state.py:124-135 | State, then journal, then the recovered journal; any write may be the last, and nothing else is written |
| Rehearsal.RehearsalNode.Execute | fleet/rehearsal_state.py:50-135 | One request: known ones replayed or refused, all but the matching drain refused while interrupted, all refused once fenced or retired; otherwise done as the operation ended, or cut off by a death at one of its writes; when no call fails it is answered, and fails only if not allowed |
| OggCrc.Checksum | messenger/codec.py:86-92 | The byte and bit loops compute the specified register |
| OggCrc.ShiftIsOneToOne | messenger/codec.py:86-92 | One bit of the division never maps two registers to one |
| OggCrc.FromIsLinear | messenger/codec.py:86-92 | The checksum is linear, so it sees only where two pages differ |
| OggCrc.BurstShows | messenger/codec.py:86-92 | Equal-length pages that differ only within four consecutive bytes never share a checksum |
| OggCrc.LeadingZerosDoNotCount | messenger/codec.py:86-92 | The division starts from an empty register: leading zero bytes change nothing |
| OggCrc.OneLeavesTheGenerator | messenger/codec.py:86-92 | The checksum of a single one bit is the generator of section 6 of RFC 3533 |
| OggCrc.ChecksumChecks | messenger/codec.py:86-92 | A page followed by four bytes divides evenly if and only if those bytes are its checksum |
| OggFinaliser.SealedIsSound | messenger/codec.py:127-132 | Writing the checksum makes it right, touches only its four bytes, and changes nothing on a sound page |
| OggFinaliser.FinalisedExactly | messenger/codec.py:95-134 | Finalising succeeds if and only if every page checks, the last packet is complete and the envelope is within limits, whatever the last flag says; the time is the one already carried |
| OggFinaliser.FinalisedKeeps | messenger/codec.py:95-134 | Length and page boundaries stay, every page checks again, only the last page's flag byte and checksum change, and a second pass changes nothing |
| OggFinaliser.MeasureAgrees | messenger/codec.py:137-162 | Completing the last page leaves serial, sequence, header and granules as the envelope check reads them |
| OggFinaliser.DamageIsNoticed | messenger/codec.py:116-120 | Up to four damaged bytes in a row in the header fields or body of an accepted page are refused as a checksum error |
| OggFinaliser.CheckPage | messenger/codec.py:107-124 | One round of the finaliser's loop finds exactly the first fault of the page |
| OggFinaliser.FramePage | messenger/codec.py:142-146 | Where a page lies in the file, or the fault the envelope check reports for it |
| OggFinaliser.Complete | messenger/codec.py:127-132 | The last page flagged and sealed |
| OggFinaliser.ReadPage | messenger/codec.py:141-158 | One round of the envelope check |
| OggFinaliser.OpusDuration | messenger/codec.py:137-162 | The loop computes the specified sample count or the first fault |
| OggFinaliser.FinalizeRecordedOpus | messenger/codec.py:95-134 | The loop computes the specified recording or the first fault |
| Subscription.DecodedAllowsExactly | messenger/subscription_view.py:30-75 | A decoded cohort response allows access if and only if its state is entitled and it was observed before its boundary |
| Subscription.DecodedIsAccepted | messenger/subscription_view.py:30-75 | Whatever decodes is accepted by an empty store, with the decoded snapshot, and raises a notice exactly when it carries an event |
| Subscription.SnapshotSound | messenger/subscription_view.py:78-107 | A snapshot has an entitlement end exactly while its effective state is entitled, and then that end is the boundary of its state |
| Subscription.StepKeeps | messenger/subscription_view.py:124-173 | Every input keeps the record sound and only moves it forward |
| Subscription.RunOnlyAdvances | messenger/subscription_view.py:124-173 | Over every input sequence no version, confirmation time or cohort is lost, an ended state never comes back within a version, and a notice keeps its content while its flags are only set |
| Subscription.OneNoticePerVersion | messenger/subscription_view.py:158-173 | Over every input sequence at most one notice is raised per version |
| Subscription.NoticeIsEarned | messenger/subscription_view.py:158-172 | A notice is raised only by a confirmed event, unread; its topic matches the subscription's state; a renewal runs past every end the record showed before |
| Subscription.AcceptIsIdempotent | messenger/subscription_view.py:124-173 | Confirming the same response again changes nothing |
| SubscriptionEvidence.EvidenceVerdict | messenger/subscription_view.py:124-173 | On every reachable record, cohort evidence is taken if and only if it is in order, of the known device, and a first snapshot, a newer version under another event, or the same version unchanged; never before the record's own time; it is passed over if and only if in order and overtaken |
| SubscriptionEvidence.EvidenceIsRecorded | messenger/subscription_view.py:158-173 | The record then has that snapshot, time and event; over an earlier version its notice is unread and its topic follows from the event's kind, the previous state and whether the payment reaches past all that was paid or granted before; over the same version the event and notice on record stay |
| SubscriptionEvidence.OutsideVerdict | messenger/subscription_view.py:128-135 | Outside the cohort a bare status is taken if and only if the record is of that device, not of a member and not newer |
| SubscriptionEvidence.WireRoundTrip | messenger/subscription_view.py:30-121 | Every snapshot the service may state, with or without its event, is decoded from its wire form as it is |
| SubscriptionEvidence.DecodedIsPresentable | messenger/subscription_view.py:30-121 | And nothing else is decoded: what comes out is in range, effective as its state is at that time, and its event is the one behind it |
| Subscription.SubscriptionStore.AcceptConfirmed | messenger/store.py:278-285 | Reads, reduces and writes the record; a refusal or a stale response leaves it; which evidence is which is in `SubscriptionEvidence.EvidenceVerdict` |
| Subscription.SubscriptionStore.ServiceMark | messenger/store.py:292-307 | Sets the flags of the notice named, reading it also counts as notified |

## Left out

- Cryptography, key material, envelopes and certificates are opaque values; `FleetAccess` proofs and nonces are not modelled.
- The score that orders gateways in `rank_gateways` is a parameter; only its admission filter is modelled.
- Mailbox.MessageStore.PendingOutbox: returns the set of waiting messages, without the order of the listing.
- FleetGateway.FencedGateway.Recover: no other execution comes between the rows it redoes, and failures of the operator's tools are an input; when it does not return normally only the journal's soundness is promised, and its normal return is promised for installs that have not expired.
- Job claims and backoff of the fleet worker (`claim_work`, `finish_work`), schema migrations and the audit event table.
- A foreign editor that changes a peer whose key a journal row holds is outside the runs of `FleetProtocol`.
- Spool: the page ceiling of the database file and the listing of a recipient's messages without a purge.
- Whether a service notice is applicable to a platform is a parameter of receiving; notice texts, the inbox and service flags are left out.
- Native direct sending (`Chat.send`) and the radio transport.
- OggFinaliser.OpusDuration: returns the sample count, not its rounding to milliseconds in floating point.
- Subscription.DecodedAllowsExactly: JSON text, its size limit and the exact key sets are taken as parsed; fractions count as a wrong type.
- The display of a subscription (`view`) and its suppression of old notifications.
- Rehearsal.RehearsalNode.Apply: enrolment, material delivery and health evidence are outcomes of abstract runtime calls; the read-only status action and the permit's own checks are not modelled.
- `messenger/sync.py` and `fleet/installer.py` repeat simpler forms of the delivery worker and of the rehearsal.
