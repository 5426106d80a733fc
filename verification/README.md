# A model of the watchtower

A watchtower keeps, for every registered user, encrypted penalty transactions. Each is filed under the first half of
the id of the commitment transaction it punishes. When such a transaction appears in a block, the tower decrypts the
penalty, sends it to bitcoind, and follows it until it has a hundred confirmations. This project models the tower's
logic, and the client plugin's bookkeeping, and proves what they keep over whole runs.

The modules, from the bottom up:

- `Basics`, `Records`, `InverseIndex`: identifiers, exceptions, records, and dictionaries of lists that invert another
  dictionary.
- `AppointmentsDb`, `Cleaner`: the flat, prefix-coded appointments database and the deletion routines.
- `Slots`, `Expiry`, `Gatekeeper`: subscriptions, slot accounting, expiry, the cache of outdated users, the users
  database.
- `Carrier`, `Confirmations`, `Responder`: sending penalties, counting missed confirmations, sending again, completion.
- `BlockTree`, `BlockProcessor`, `LocatorCache`: the tree of blocks bitcoind serves, fork recovery, and the sliding
  window of recent locators.
- `Breaches`, `TowerModel`, `Watcher`: sorting breaches, the whole tower as one value with the effect of every step on
  it, and the Watcher as a class proved against those effects.
- `Invariants`, `BlockSteps`, `Runs`, `Lifecycle`, `Rebroadcasts`, `Pushes`, `Orphans`, `Accounts`, `Jumps`: what all
  steps keep, and theorems over runs of requests, blocks at each of the three components, and restarts, in any order.
- `Outcomes`: what steps and runs lead to, said in terms of the blocks and their transactions, of bitcoind's replies and
  of the request alone.
- `Builder`, `Teosd`, `Recovery`: rebuilding memory from disk, what is fed after downtime and what that leaves behind, and
  the block threads on the shared tower.
- `Witnesses`, `BreachWitnesses`: short runs from a fresh tower that reach the failures listed below.
- `ChainMonitor`: two producers and one notifier, interleaved action by action. `Enqueue`, `NotifyNext`, `MonitorChain`,
  `Activate` and `Terminate` are proved to be these actions.
- `Plugin`, `PluginRuns`: the client's records of its appointments, its retries, and what the records still hold over
  runs of both.

Classes have the fields of the Python classes and change them in place. Each of their methods is proved against a
function or relation on values, and the theorems over runs are about those. A `Move` in `Runs` is what
`Watcher.AddAppointment`, `Watcher.Register`, `Watcher.OnBlock`, `Teosd.RespondToBlock`, `Teosd.ExpireSubscriptions`
and `Teosd.Rebuild` are proved to do. An `Op` of a run in `PluginRuns` is what `Plugin.WTClient.RevokeAt`,
`Plugin.WTClient.DoRetry`, `Plugin.WTClient.RetryTower` and `Plugin.WTClient.OnGiveup` are proved to do to one tower.

## What the model assumes

- Decryption, hashing, signatures and bitcoind's answers are parameters. Decryption is a function of the blob and the
  transaction id. bitcoind may answer each push as it likes.
- The uuid of an appointment is injective in its locator and its user.
- The blocks of one chain share no locator (`DistinctLocators`). `EvictionIsExactIff` shows this is exactly what
  deleting the locators of the oldest block needs.
- A block at one component is one atomic step, and so is a request. In the code the cache is updated just before the
  lock is taken (teos/watcher.py:492-494).
- A run of `Move`s is any sequence of requests, blocks and restarts. A `Step` is a move that overlooks no trigger: no
  watched appointment has its trigger among the cached blocks afterwards without having been searched for. A block on
  top of the Watcher's last one never overlooks any (`BlockSteps.OnTopOverlooksNothing`); one that is not, after a reorg
  or after downtime, may. Theorems over runs of `Step`s have no other hypothesis about blocks, and `Runs.InvHoldsIff`
  says that this one is exact.
- The Responder receives blocks on top of its last known one, or follows nothing.

## Where the code does less than it says

Each of these is a theorem, with the condition under which it happens.

- A user that expires while one of its charged appointments is not tracked ends the Responder's thread with a
  `KeyError`, whether or not the Gatekeeper was first at that height (`Orphans.UntrackedWhenExpiring`). Any tower that
  tracks something is one registration and one request away from it (`Orphans.WaitingWhenExpiring`), and
  `Witnesses.ResponderIsStopped` gets there in four steps from a fresh tower.
- A block deletes the last tracker of an unconfirmed penalty exactly when all of its trackers are outdated and the block
  does not confirm it (`Orphans.OrphanedIff`). Exactly as long as no block does so, every unconfirmed penalty has a
  tracker (`Orphans.AllTrackedIff`). Afterwards it is never sent again, and the Responder gets through at
  most five more blocks at which something is tracked (`Orphans.OrphanStopsResponder`). `Witnesses.OrphanIsReached`
  reaches such a block.
- After a restart no unconfirmed penalty is sent again, although its tracker is still there
  (`Rebroadcasts.RestartForgetsUnconfirmed`).
- A penalty that is due while it still has a receipt from a breach is not passed on to bitcoind, but its counter starts
  over (`Pushes.PushedWhenSentIff`).
- `update_states` feeds some blocks twice to the Watcher when it is the one further behind (`Builder.FedExactlyIff`).
- With nothing stored, `bootstrap_components` feeds no missed block to anyone: the components stay where they stood
  (`Teosd.BootstrapComponents`). The next block is not on top of the Watcher's last one, without any fork, and overlooks
  an appointment sent meanwhile whose trigger was missed (`Witnesses.RestartOverlooks`).
- A block that is not on top of the Watcher's last one leaves exactly the overlooked appointments watched
  (`BlockSteps.OverlookedStayWatched`). Sent again and delivered, such an appointment is both watched and tracked
  (`Jumps.ExclusiveAfterAddIff`, `Jumps.JumpBreaksExclusive`), which never happens before a block overlooked a trigger
  (`Jumps.AnsweredAfterOverlooked`). A breach handed over for a tracked uuid makes the index of penalties inexact
  (`InverseIndex.InsertExactIff`).
- When the Watcher was further behind and something is tracked, the Responder is handed a block below its last one, which
  is its unfinished reorg path (`Recovery.BehindMeetsReorgPath`).
- A refusal by bitcoind is remembered until the Responder processes a block with trackers or the tower restarts
  (`Pushes.ReceiptSticksIff`). Till then no breach with this penalty is answered, whatever bitcoind would say now
  (`Pushes.RefusalSticks`, `BreachWitnesses.RefusalOutlivesBlocks`).
- The memo of decrypted blobs is keyed on the blob alone (`Breaches.MemoIsExactIff`, `Breaches.UsedIsOwnIff`): one blob
  under two locators makes an appointment tracked with a penalty it does not decrypt to
  (`BreachWitnesses.WrongPenalty`).
- The cache of outdated users also hits users that registered again: their new appointment is dropped and stays charged
  (`Lifecycle.UnexpiredIsOutdatedIff`, `Lifecycle.RenewedIsDropped`).
- A tracker that is outdated at the block that confirms its penalty is deleted without completing, because the
  unconfirmed list is read first (`Orphans.DeletedIff`), against the comment at teos/responder.py:439-440.
- The test for a compressed public key also accepts a key followed by a newline, as a second user
  (`Slots.KeyHasTwoForms`).
- The 32-bit test on slots ignores slots that may be given back (`Slots.RefundsFitIff`, `Accounts.SlotsFitIff`,
  `Expiry.SlotsLeave32Bits`).
- The Gatekeeper is fed none of the blocks missed during downtime: a user whose deletion height was among them is not
  deleted (`Expiry.DeletedIffHeightSeen`, `Expiry.MissedUserStays`).
- Two producers can enqueue the same block (`ChainMonitor.SpacedIff`, `ChainMonitor.SameTipTwice`), and the end message
  may never be delivered (`ChainMonitor.EndCanArriveIff`).
- A response the plugin does not expect loses the appointment at that tower (`Plugin.RecordedOnceIff`). The record of a
  tower has room for one proof: a second one makes it forget the appointment of the first
  (`PluginRuns.AlwaysHeldIff`, `PluginRuns.SecondProofLosesFirst`). Acceptances are kept by locator alone: one sent again
  is still held, but the receipt of the first appointment is replaced.

## Model

| member | source | states |
|---|---|---|
| Runs.RunKeepsInv | teos/watcher.py:387-435 | In every state of every run of requests, blocks and restarts in which no block overlooks a trigger: no uuid is both watched and tracked, the database is exactly memory, no watched appointment has its trigger in the last `cache_size` blocks, every tracked dispute is a transaction of some block of the tree, perhaps abandoned since, and matches its locator, all retry counters are below six, and stored appointments that are charged at all are charged for what is stored |
| Runs.TriggerIsActedOn | teos/watcher.py:494-546 | A trigger found in a block is acted on in that block: the appointment leaves the Watcher, and is tracked with that very dispute, flagged and still stored, or gone from memory and disk and, unless outdated, no longer charged |
| Runs.AnsweredIff | teos/watcher.py:504-533 | A triggered appointment ends up tracked if and only if a penalty is found for it, memoised or its own, and that is delivered, by bitcoind now or by a receipt that is left; it is then tracked with that penalty, which is its own if and only if the first earlier success in this block with its blob agrees |
| Outcomes.BreachFollowsReply | teos/carrier.py:79-138 | A breach whose penalty has no receipt is tracked if and only if bitcoind accepts the penalty, or answers -27 and reports a confirmation count; any other code drops it. The penalty enters the unconfirmed list if and only if it was accepted or the count is 0 |
| Outcomes.RequestFollowsReply | teos/watcher.py:396-421 | The same for an admitted request whose trigger is cached |
| Runs.TriggeredIsListed | teos/watcher.py:566-579 | Every appointment that is not outdated and whose locator is in the block's dictionary is among the breaches; which transaction ids that means is `Outcomes.FoundByPrefixIff` |
| Outcomes.FoundByPrefixIff | teos/watcher.py:490-579 | A watched appointment that is not outdated leaves the Watcher at a block, as one of the breaches searched for, if and only if its 32-character locator begins the id of some transaction of the block; if it is tracked then, its dispute is such a transaction of that block |
| Outcomes.MapIsPrefixes | common/tools.py:59-70 | A block's dictionary has a 32-character key if and only if the key begins some transaction id, and holds the last such id |
| Outcomes.CachedByPrefixIff | teos/watcher.py:61-126 | The cache holds a 32-character locator if and only if it begins the id of a transaction in one of the last `cache_size` blocks of the chain |
| Outcomes.WatchedByPrefixIff | teos/watcher.py:396-435 | An admitted request does not end up watched if and only if its locator begins the id of a transaction of the last `cache_size` blocks; if it is tracked then, its dispute is such a transaction |
| Outcomes.EmptyBlockMovesOn | teos/watcher.py:494-495 | A block without transactions, or with nothing watched, only moves the Watcher on, even when appointments are outdated at it |
| Runs.UntriggeredIsLeftAlone | teos/watcher.py:494-546 | A block changes nothing about a watched appointment that it neither outdates nor triggers |
| Runs.FreshTowerInv | teos/watcher.py:218-232 | A tower with empty databases satisfies the invariant, so the theorems over runs are about real runs |
| Runs.StepKeepsInv | teos/watcher.py:330-546 | Each of the six kinds of step keeps the invariant on its own |
| Runs.InvHoldsIff | teos/watcher.py:480-554 | Over any moves, reorgs and restarts included, the invariant holds at every moment if and only if no block overlooks a trigger |
| Runs.OnTopIsEnough | teos/watcher.py:485-492 | No trigger is overlooked when every block reaches the Watcher on top of its last one, or finds nothing watched |
| Lifecycle.AdmittedIff | teos/watcher.py:363-393 | A request is admitted if and only if there is room, its signer is registered and not expired, it is not tracked yet, and the slots it frees and those available cover it |
| Lifecycle.RefusedChangesNothing | teos/watcher.py:363-393 | A request that is not admitted leaves the whole tower as it was |
| Outcomes.RefusedBecause | teos/watcher.py:363-394 | Each exception by its condition: no room; unknown signer; expired; already tracked; more than 4096 characters for every slot that is free or would be freed. The earlier one wins, and there is no other |
| Outcomes.StoredAsSent | teos/watcher.py:373-435 | What an accepted request leaves on disk is the appointment as it was sent, with its signer and the height the Watcher had reached |
| Outcomes.MemorySummarises | teos/builder.py:11-77 | In every state with the invariant, memory holds of each watched appointment and each tracker the locator, user and penalty id stored for it |
| Lifecycle.AnswerReportsUser | teos/watcher.py:449-455 | The answer reports the height reached and the slots and expiry the user really ends up with, and the slots taken are what its balance lost |
| Lifecycle.CachedTriggerIsActedOn | teos/watcher.py:396-421 | An appointment accepted with its trigger in the cache is never watched: it is tracked with the cached dispute if it decrypts and is delivered, otherwise stored nowhere; its slots stay charged either way |
| Lifecycle.UncachedIsWatched | teos/watcher.py:423-435 | An appointment accepted without a cached trigger is watched and stored under its uuid, and the Responder is not touched |
| Lifecycle.WatchedUntilFound | teos/watcher.py:494-546 | Over a whole run a watched appointment stays, with its summary, until the first searched block that outdates or triggers it, and at every such block it leaves, tracked with the dispute of that block or dropped |
| Lifecycle.TrackedUntilFinished | teos/responder.py:305-332 | Over a whole run a tracker and its stored appointment stay unchanged until the first block at which it is completed, or outdated with its penalty unconfirmed |
| Outcomes.FinishedAtHundred | teos/responder.py:403-455 | A tracker is finished at a block if and only if its penalty is unconfirmed and it is outdated, or its penalty is not in that list and bitcoind reports it on the chain with at least a hundred confirmations; one reported unknown or in the mempool is never completed |
| Outcomes.KeptBelowHundred | teos/responder.py:305-332 | Over a whole run, when bitcoind counts the blocks from the one that holds the penalty to the tip: a tracker stays, unchanged and with its appointment, through every block at which that count is below a hundred, and keeps its charge while its owner is registered |
| Outcomes.ResolvedAtHundred | teos/responder.py:305-332 | It is gone, from memory and disk, after the first processed block at which the count is a hundred or more |
| Outcomes.ChargeStays | teos/gatekeeper.py:248-269 | No move changes what a tracked appointment is charged, unless it finishes it or deletes its owner |
| Lifecycle.StoredUntilReleased | teos/cleaner.py:73-153 | Over a whole run nothing stored is lost, and nothing moves between Watcher and Responder, except at a block that finds it or finishes it |
| Lifecycle.UnexpiredIsOutdatedIff | teos/gatekeeper.py:333-367 | The watched appointment of a user that does not expire at a height is outdated there if and only if the cache remembers it for that height from before the user was deleted |
| Lifecycle.RenewedIsDropped | teos/watcher.py:495-502 | A user deleted at a height that registers again and sends the same appointment loses it, still charged, when the Watcher reaches that height |
| Jumps.ExclusiveAfterAddIff | teos/watcher.py:387-421 | Whatever blocks came before, an accepted request leaves an appointment both watched and tracked in exactly one case: it was watched, its trigger is cached, it decrypts and is delivered |
| Jumps.NeverAnsweredWhileWatched | teos/watcher.py:396-421 | Under the invariant that case cannot arise |
| Jumps.AnsweredAfterOverlooked | teos/watcher.py:396-421 | Over any moves that case arises only after some block overlooked a trigger |
| Jumps.ConsistentIff | teos/watcher.py:330-554 | Over any moves, reorgs and restarts included, nothing is both watched and tracked and the database is memory at every moment if and only if no accepted request is that case |
| Jumps.JumpBreaksExclusive | teos/watcher.py:485-504 | A block whose window holds, in another block, the trigger of a watched appointment leaves it watched; sent again and delivered, it is both watched and tracked |
| Witnesses.RestartOverlooks | teos/teosd.py:192-196 | Without any fork: a tower with nothing stored restarts below the tip and is fed nothing, an appointment is sent whose trigger was missed, the next block overlooks it, and sent again it is both watched and tracked |
| Witnesses.JumpBreaksExclusive | teos/watcher.py:387-504 | In a chain of three blocks, a jump over the middle one overlooks a waiting appointment, and its renewal ends up both watched and tracked |
| Witnesses.AliceWaitsRun | teos/watcher.py:268-435 | The tower that jump starts from is reached from a fresh one by a registration and a request |
| Rebroadcasts.SentEverySixBlocks | teos/responder.py:316-332 | From a counter at m, n counted blocks without the penalty leave it at (m + n) mod 6, and it went through `rebroadcast` exactly (m + n) / 6 times, over any run without a restart |
| Rebroadcasts.OutOfListStepIff | teos/responder.py:271-274 | A step puts a penalty in the unconfirmed list if and only if it delivers it for a breach, found in a block or cached at a request, and bitcoind reports no confirmations |
| Rebroadcasts.SilentOutOfList | teos/responder.py:374-401 | Over a run, a penalty that is not in the unconfirmed list stays out of it if and only if no step delivers it unconfirmed for a breach, and is not sent again all that time, whatever else the Watcher and the users do |
| Rebroadcasts.OnlyUnconfirmedAreSent | teos/responder.py:367-401 | A penalty confirmed by a block is not sent again in that block |
| Rebroadcasts.ConfirmedLeavesList | teos/responder.py:367-372 | A tracked penalty found in a block is no longer unconfirmed after it |
| Rebroadcasts.ConfirmedStaysSilent | teos/responder.py:367-401 | Over a run, a penalty is not sent again from the block that confirms it on, unless a later breach delivers it unconfirmed |
| Rebroadcasts.RestartForgetsUnconfirmed | teos/builder.py:44-77 | After a restart the trackers are the same, but no penalty is sent again until a breach delivers it unconfirmed, whatever blocks and requests come |
| Pushes.IssuedStepIff | teos/carrier.py:73-136 | A penalty has a receipt after a move if and only if it had one or the move handles a breach with it, and the move does not clear the receipts |
| Pushes.DeliveredIff | teos/carrier.py:73-136 | Over any moves, a breach has its penalty delivered if and only if the first answer since the receipts were last cleared was an acceptance, or there was none and bitcoind accepts it now; `Outcomes.BreachFollowsReply` says which replies accept |
| Pushes.ReceiptSticksIff | teos/responder.py:318-346 | A receipt stays, unchanged, if and only if the Responder processes no block with trackers and the tower does not restart |
| Pushes.RefusalSticks | teos/carrier.py:73-77 | Until then a penalty refused once is refused to every breach |
| BreachWitnesses.RefusalOutlivesBlocks | teos/responder.py:318-346 | A run in which a refusal outlives a block, and an accepted appointment is dropped although bitcoind would accept its penalty |
| Pushes.PushedWhenSentIff | teos/carrier.py:73-77 | Over any moves, bitcoind gets a penalty every time it is sent again if and only if at none of these blocks a receipt for it is left from a breach since the receipts were last cleared |
| Orphans.CanProcessIff | teos/responder.py:308-332 | The Responder gets through a block on top of its last one if and only if every outdated appointment is tracked and no penalty that is due there loses its last tracker |
| Orphans.OrphanedIff | teos/responder.py:310-328 | A tracked penalty is unconfirmed without a tracker after a block if and only if it was unconfirmed, is not in the block, and all its trackers are outdated |
| Orphans.DeletedIff | teos/responder.py:310-328 | A block deletes a tracker if and only if its penalty was unconfirmed before and it is outdated, or was confirmed before and is resolved, which is a hundred confirmations by `Outcomes.FinishedAtHundred`; a confirmation in the block itself comes too late |
| Orphans.LookupFailsIff | teos/responder.py:478-489 | The lookup of trackers in `rebroadcast` raises if and only if some penalty is due that the block does not confirm and that has no tracker but outdated ones |
| Orphans.TrackedStepIff | teos/responder.py:242-278 | Outside the blocks of the Responder, a penalty becomes tracked if and only if it is delivered for a breach, and none stops being tracked |
| Orphans.AllTrackedIff | teos/responder.py:310-332 | Over a run, every unconfirmed penalty has a tracker at every moment if and only if no block orphans one |
| Orphans.LookupFailsOnlyForOrphans | teos/responder.py:478-489 | While no block has orphaned a penalty, the lookup fails at the next block if and only if that block orphans a penalty whose counter stands at five |
| Orphans.UntrackedStopsResponder | teos/responder.py:478-489 | From a counter at m, an unconfirmed penalty without a tracker is never sent again, and the Responder processes at most 5 - m more blocks at which something is tracked, unless a breach delivers it anew |
| Orphans.OrphanStopsResponder | teos/responder.py:310-332 | The same from the block that orphans the penalty on |
| Orphans.RestartAfterFailure | teos/responder.py:308-332 | Restarting from what a failed block leaves behind, the invariant holds again, before the same block |
| Orphans.AfterFailureIff | teos/responder.py:310-332 | After that restart the Responder gets through the block if and only if nothing is tracked or every outdated appointment is |
| Orphans.UntrackedWhenExpiring | teos/responder.py:449-453 | An outdated appointment that is not tracked makes the block impossible for the Responder, whichever component was first at that height |
| Orphans.WaitingWhenExpiring | teos/responder.py:449-453 | Any tower that tracks something fails so after one new user registers and sends an appointment that just waits |
| Witnesses.ResponderIsStopped | teos/responder.py:449-453 | A run of four steps from a fresh tower to a state with the full invariant in which the next block is impossible for the Responder |
| Witnesses.OrphanIsReached | teos/responder.py:310-332 | At a tower that `Witnesses.AliceIsTracked` reaches from a fresh one in two steps, the next block orphans a penalty |
| Accounts.RunConservesSlots | teos/gatekeeper.py:170-190 | In every state after any moves, available plus charged slots of each user equal the slots granted to it, and none is overdrawn |
| Accounts.WatcherReturnsSlots | teos/watcher.py:496-546 | A block at the Watcher gives back the slots of exactly the appointments triggered in vain: not of kept, delivered or outdated ones |
| Accounts.ResponderReturnsSlots | teos/responder.py:310-330 | A block at the Responder gives back the slots of exactly the completed trackers, not of outdated ones |
| Accounts.SlotsFitIff | teos/gatekeeper.py:179-182 | After any moves, the available slots of a user stay within 32 bits under every refund if and only if the slots granted to it do |
| Invariants.AddKeepsInv | teos/watcher.py:362-455 | A request keeps the invariant, whether it is refused, watched, answered at once or dropped |
| Invariants.RegisterKeepsInv | teos/watcher.py:268-287 | A registration keeps the invariant |
| Invariants.FreshWhenTriggered | teos/watcher.py:387-398 | When a request finds its trigger in the cache and has no tracker, its uuid is stored nowhere |
| Invariants.OutdatedAreApart | teos/gatekeeper.py:345-349 | Outdated users share no appointment, so the flattened list has no duplicates and no deletion hits a missing key |
| BlockSteps.WatcherBlockKeepsMemory | teos/watcher.py:480-554 | Any block at the Watcher keeps memory exclusive, the database in step with it, and the sources of the trackers |
| BlockSteps.WatcherBlockKeepsInvIff | teos/watcher.py:480-554 | A block at the Watcher keeps the invariant if and only if it overlooks no trigger |
| BlockSteps.OnTopOverlooksNothing | teos/watcher.py:485-492 | A block on top of the last one overlooks no trigger |
| BlockSteps.OverlookedStayWatched | teos/watcher.py:485-504 | After any block the appointments still watched with a cached trigger are exactly the overlooked ones |
| BlockSteps.WatcherCanProcess | teos/watcher.py:494-546 | As long as memory and disk are consistent the Watcher gets through any block |
| BlockSteps.ResponderBlockKeepsInv | teos/responder.py:305-353 | A block at the Responder keeps the invariant |
| BlockSteps.GatekeeperBlockKeepsInv | teos/gatekeeper.py:147-149 | A block at the Gatekeeper keeps the invariant, although the cache remembers deleted users |
| BlockSteps.RestartIsInvisible | teos/teosd.py:189-210 | Rebuilding from disk gives back exactly the appointments, trackers, users and last blocks; only counters, receipts and the cache of outdated users are forgotten |
| BlockSteps.CacheGrows | teos/watcher.py:104-135 | A block adds no locator to the cache but its own |
| Watcher.Watcher.AddAppointment | teos/watcher.py:330-455 | The new state of memory, both databases, receipts and slots, and the answer or exception, are those of the model function, with every check in order, even when some appointment is both watched and tracked already; memory and disk stay consistent exactly when the result is exclusive, and the class invariant is kept |
| Watcher.Watcher.ChargeAndPlace | teos/watcher.py:392-455 | Slots are charged before the appointment is placed; without enough slots nothing changes |
| Watcher.Watcher.WatchAppointment | teos/watcher.py:423-435 | The summary, the exact index and the stored appointment are updated together; an update adds no second index entry |
| Watcher.Watcher.RespondAtOnce | teos/watcher.py:397-421 | A cached trigger leads to a tracker, a stored appointment and a flag if delivered; otherwise only the receipt is new |
| Watcher.Watcher.Register | teos/watcher.py:268-287 | Only the user changes: the returned and the stored expiry are the block count plus the duration, for a known user too, the returned slots are the old ones plus the granted ones, and what is charged stays charged |
| Watcher.Watcher.OnBlock | teos/watcher.py:480-554 | Any block moves the tower as the block relation says and keeps cache, index and database in step, and keeps the full invariant if and only if it overlooks no trigger |
| Watcher.Watcher.SearchBlock | teos/watcher.py:494-546 | Outdated appointments go first; each remaining breached appointment is disposed of exactly once; no key is missing on the way |
| Watcher.Watcher.FilterBreaches | teos/watcher.py:618-670 | Every uuid under a breached locator is judged exactly once and is in exactly one of the two results |
| Watcher.Watcher.GetBreaches | teos/watcher.py:556-579 | A transaction of the block is a breach if and only if some watched appointment waits for its locator |
| Watcher.Watcher.DeleteOutdated | teos/watcher.py:496-502 | Exactly the outdated appointments that are still watched leave memory and disk |
| Watcher.Watcher.HandleValidBreaches | teos/watcher.py:506-533 | The loop hands each valid breach over once: delivered ones leave memory and get a tracker, the rest is listed for deletion |
| Watcher.Watcher.SettleBreaches | teos/watcher.py:535-546 | Flags are set, and refused or invalid appointments leave memory and disk and give their slots back |
| Breaches.VerdictsSound | teos/watcher.py:643-670 | A valid verdict carries the entry's own locator and dispute and a decryption of its blob; an invalid one means the blob does not decrypt |
| Breaches.MemoIsExactIff | teos/watcher.py:641-665 | Memoised verdicts equal decrypting every blob separately if and only if no earlier success disagrees with a later entry of the same blob |
| Breaches.UsedIsOwnIff | teos/watcher.py:641-665 | One appointment is answered with its own penalty if and only if the first earlier success with its blob, if any, agrees with its own decryption |
| BreachWitnesses.WrongPenalty | teos/watcher.py:641-665 | At a tower with the full invariant, a block after which an appointment is tracked with a penalty it does not decrypt to |
| Breaches.SameDisputeIsSafe | teos/watcher.py:641-665 | In particular when equal blobs share a dispute |
| LocatorCache.LocatorCache.OnBlocks | teos/watcher.py:473-492 | After any sequence of blocks (extensions, forks, repeats, jumps) the cache equals the one recomputed from the last `cache_size` ancestors of the last block |
| LocatorCache.LocatorCache.OnBlock | teos/watcher.py:485-492 | One received block leaves the cache exact for it, and no eviction hits a missing locator |
| LocatorCache.LocatorCache.Init | teos/watcher.py:61-88 | Starting from any block, the cache holds exactly its last `cache_size` ancestors, oldest first, or all of them when there are fewer |
| LocatorCache.LocatorCache.Fix | teos/watcher.py:137-163 | The rebuilt cache is exact for the given block |
| LocatorCache.LocatorCache.Update | teos/watcher.py:104-126 | The new locators win, and the oldest block leaves exactly when there are too many |
| LocatorCache.LocatorCache.RemoveOldestBlock | teos/watcher.py:128-135 | The oldest block and its locators leave; it raises if and only if one of them is missing |
| LocatorCache.FixThenUpdate | teos/watcher.py:486-492 | Updating a cache just fixed for the same block changes nothing |
| LocatorCache.UpdateExtends | teos/watcher.py:114-133 | Updating a cache that is exact for the parent gives one that is exact for the child |
| LocatorCache.EvictionIsExactIff | teos/watcher.py:131-133 | Deleting the locators of the oldest block is right if and only if none of them recurs in a block that stays |
| LocatorCache.CacheAnswers | teos/watcher.py:101-102 | The cache knows a locator if and only if it is that of some transaction of the window, and answers with such a transaction; `Outcomes.CachedByPrefixIff` says it of the ids themselves |
| AppointmentsDb.EncodeIsInjective | teos/appointments_dbm.py:7-11 | Two different entries never share a flat key, whatever their uuids |
| AppointmentsDb.KeysOnDisk | teos/appointments_dbm.py:7-11 | The flat keys as they are on disk |
| AppointmentsDb.PrefixSelectsFamily | teos/appointments_dbm.py:68-72 | A key starts with the prefix of a family if and only if it belongs to it; the last-block keys belong to none |
| AppointmentsDb.LoadPrefix | teos/appointments_dbm.py:54-80 | Exactly the entries under a prefix are returned, indexed by the rest of their key |
| AppointmentsDb.WriteKeepsRepresents | teos/appointments_dbm.py:7-11 | Writing or deleting one flat key changes one entry of one family and nothing else |
| AppointmentsDb.AppointmentsDbm.LoadWatcherAppointments | teos/appointments_dbm.py:159-179 | Exactly the stored appointments without a flag are loaded |
| AppointmentsDb.AppointmentsDbm.LoadResponderTrackers | teos/appointments_dbm.py:181-190 | Exactly the stored trackers are loaded |
| AppointmentsDb.AppointmentsDbm.LoadWatcherAppointment | teos/appointments_dbm.py:107-131 | The stored appointment, or none |
| AppointmentsDb.AppointmentsDbm.LoadResponderTracker | teos/appointments_dbm.py:133-157 | The stored tracker, or none |
| AppointmentsDb.AppointmentsDbm.StoreWatcherAppointment | teos/appointments_dbm.py:192-221 | Only this appointment changes, in one family |
| AppointmentsDb.AppointmentsDbm.StoreResponderTracker | teos/appointments_dbm.py:223-250 | Only this tracker changes, in one family |
| AppointmentsDb.AppointmentsDbm.CreateTriggeredAppointmentFlag | teos/appointments_dbm.py:403-416 | Only this flag changes |
| AppointmentsDb.AppointmentsDbm.BatchDeleteWatcherAppointments | teos/appointments_dbm.py:276-292 | Exactly the listed appointments leave their family |
| AppointmentsDb.AppointmentsDbm.BatchDeleteResponderTrackers | teos/appointments_dbm.py:318-333 | Exactly the listed trackers leave their family |
| AppointmentsDb.AppointmentsDbm.BatchCreateTriggeredAppointmentFlag | teos/appointments_dbm.py:418-433 | Exactly the listed flags are added |
| AppointmentsDb.AppointmentsDbm.BatchDeleteTriggeredAppointmentFlag | teos/appointments_dbm.py:476-492 | Exactly the listed flags are removed |
| AppointmentsDb.AppointmentsDbm.StoreLastBlockHashWatcher | teos/appointments_dbm.py:357-378 | Only the Watcher's last block changes |
| AppointmentsDb.AppointmentsDbm.StoreLastBlockHashResponder | teos/appointments_dbm.py:380-401 | Only the Responder's last block changes |
| AppointmentsDb.AppointmentsDbm.LoadLastBlockHashWatcher | teos/appointments_dbm.py:335-344 | The Watcher's last block, never the Responder's, or none |
| AppointmentsDb.AppointmentsDbm.LoadLastBlockHashResponder | teos/appointments_dbm.py:346-355 | The Responder's last block, never the Watcher's, or none |
| InverseIndex.InsertKeepsExact | teos/responder.py:263-269 | Appending a new uuid to the list of its key keeps the index exact: every uuid once, no list empty |
| InverseIndex.InsertExactIff | teos/responder.py:263-269 | It stays exact only for a new uuid: a known one ends up listed twice or under its old key |
| InverseIndex.RemoveKeepsExact | teos/cleaner.py:28-36 | Removing a uuid, with its list when it was alone, keeps the index exact |
| InverseIndex.ExactIsUnique | teos/builder.py:32-40 | An exact index is determined by what it inverts, up to the order of its lists, so a rebuilt one equals the one kept incrementally |
| Cleaner.DeleteAppointmentFromMemory | teos/cleaner.py:13-36 | One appointment leaves, and the index stays exact |
| Cleaner.DeleteAppointments | teos/cleaner.py:52-85 | The listed appointments leave memory, index and disk; flags and trackers are untouched |
| Cleaner.DeleteTrackerFromMemory | teos/cleaner.py:139-148 | One tracker leaves, and the index stays exact |
| Cleaner.DeleteTrackers | teos/cleaner.py:107-153 | The listed trackers leave memory, index and all three families on disk |
| Responder.Responder.AddTracker | teos/responder.py:242-278 | Tracker, index, unconfirmed list and database change together; a penalty is listed once, and only with no confirmations; the index stays exact if and only if the uuid was not tracked |
| Responder.Responder.HandleBreach | teos/responder.py:210-240 | The tracker is added if and only if the penalty was delivered; the receipt is the first one issued for it; bitcoind is asked if and only if there was none, and then its reply decides code by code; the index stays exact unless a tracked uuid is delivered again |
| Responder.Responder.GetCompletedTrackers | teos/responder.py:403-433 | Exactly the trackers whose penalty is out of the unconfirmed list and reported on the chain with at least a hundred confirmations (`Outcomes.FinishedAtHundred`), each once, as if every transaction were queried anew |
| Responder.Responder.GetOutdatedTrackers | teos/responder.py:435-455 | The outdated trackers with an unconfirmed penalty; it raises if and only if some outdated appointment is not tracked |
| Responder.Responder.CheckConfirmations | teos/responder.py:356-384 | Tracked penalties of the block leave the unconfirmed list; every one left has missed one block more |
| Responder.Responder.GetTxsToRebroadcast | teos/responder.py:386-401 | Exactly the transactions that missed six blocks, each once |
| Responder.Responder.Rebroadcast | teos/responder.py:457-496 | Counters return to zero and each transaction is sent; bitcoind gets exactly those without a receipt, each once; it raises if and only if one of them has no tracker |
| Responder.Responder.ExtendChain | teos/responder.py:308-332 | The effect of a block on memory, disk, receipts and slots, exactly when it fails, and what it leaves behind then |
| Responder.Responder.OnBlock | teos/responder.py:300-353 | The same for the whole iteration on top of the last block, with the skipped case and the last block |
| Responder.CompletedAndStuckApart | teos/responder.py:310-328 | No tracker is deleted twice in one block: completed and outdated ones are disjoint |
| Confirmations.BlockCounts | teos/responder.py:374-401 | One block moves an unconfirmed counter one step around a circle of six, and sends exactly when it comes round; other counters stay |
| Confirmations.ConfirmFacts | teos/responder.py:367-372 | The list keeps no duplicates and loses exactly the tracked transactions of the block |
| Carrier.Carrier.SendTransaction | teos/carrier.py:61-138 | A transaction with a receipt is not pushed again; otherwise bitcoind answers once, however often the connection is refused first, and it counts as delivered if it was accepted, or if the code is -27 and a count is reported |
| Carrier.Carrier.Push | teos/carrier.py:131-138 | Retries after refused connections end with one answer and one receipt, which is that of the code bitcoind answered |
| Carrier.FirstReceiptWins | teos/carrier.py:73-77 | Between two resets every call for one transaction returns the first receipt, whatever calls and answers come between |
| Carrier.FreshFitsReply | teos/carrier.py:87-129 | The receipt of a transaction pushed for the first time, for each code bitcoind may answer: delivered, confirmations and reason |
| Slots.KeyHasTwoForms | common/tools.py:6-17 | A key of 66 characters is accepted if and only if it is also accepted with a newline at its end, since `$` matches there; it starts by 02 or 03 and has hex digits only |
| Slots.RequiredSlots | teos/gatekeeper.py:257-257 | The least number of 4096-character pieces that covers the blob |
| Slots.ChargeKeepsBalance | teos/gatekeeper.py:248-269 | A charge or an update keeps every user's total of available and charged slots, overdraws nobody, and charges the new size |
| Slots.RefundKeepsBalance | teos/cleaner.py:168-181 | Giving slots back keeps every user's total |
| Slots.RefundsFitIff | teos/gatekeeper.py:179-182 | Available slots stay within 32 bits under every refund if and only if available and charged slots together fit, which the guard does not test |
| Slots.RegisterSubscribes | teos/gatekeeper.py:167-196 | A registration of a new or known user sets the expiry to the block count plus the duration, adds the granted slots, leaves what is charged and everybody else alone, and is refused if and only if the key is malformed or the sum leaves 32 bits |
| Expiry.SlotsLeave32Bits | teos/gatekeeper.py:179-182 | A registration, a charge of one slot, a second registration and a refund lead one above 32 bits |
| Expiry.OutdatedIff | teos/gatekeeper.py:306-318 | A user is outdated at a height if and only if the cache names it there, or names nobody there and the height is its expiry plus the grace period; a height cached with nobody is looked up again |
| Expiry.BlockRaisesIff | teos/cleaner.py:196-198 | A block ends the Gatekeeper's thread if and only if its height is cached with a user that has left since |
| Expiry.RunConserves | teos/gatekeeper.py:170-190 | Slot conservation over runs of the Gatekeeper alone, in any order of registrations, charges, refunds and blocks |
| Expiry.RunOnTime | teos/gatekeeper.py:147-183 | On contiguous heights, with bitcoind's count never behind, no deletion hits an absent user and no user outlives its deletion height |
| Expiry.SubscriptionLifetime | teos/gatekeeper.py:312-316 | A user that does not renew is registered exactly until the block at its expiry plus the grace period |
| Expiry.LastRegistrationCounts | teos/gatekeeper.py:176-183 | Over any run in which the last registration of a user, its first or a renewal, was at block count s: it is registered until the block at s plus duration plus grace period, and leaves there |
| Expiry.RemembersTen | teos/gatekeeper.py:351-367 | The cache of outdated users never holds more than ten heights |
| Expiry.DeletedIffHeightSeen | teos/gatekeeper.py:312-316 | For any increasing heights, with any gaps, a user that does not renew is deleted if and only if the Gatekeeper sees exactly the height of its expiry plus the grace period |
| Expiry.MissedUserStays | teos/teosd.py:213-256 | So a user whose deletion height was among the missed blocks, which the Gatekeeper is not fed, is never deleted until it renews |
| Expiry.CacheHidesThreadOrder | teos/gatekeeper.py:351-367 | The users outdated at a height are the same just before the Gatekeeper processes it and at any time through its next nine heights, although it deletes them |
| Gatekeeper.Gatekeeper.AddUpdateUser | teos/gatekeeper.py:151-196 | Memory and database get the same new record, whose expiry is the block count plus the duration whether the user is new or known, or nothing changes and it raises |
| Gatekeeper.Gatekeeper.AddUpdateAppointment | teos/gatekeeper.py:226-269 | The charge or update is applied to memory and database, or nothing changes and it raises |
| Gatekeeper.Gatekeeper.GetOutdatedAppointments | teos/gatekeeper.py:333-349 | Exactly the appointments of the outdated users, without duplicates when users share none |
| Gatekeeper.Gatekeeper.UpdateOutdatedUsersCache | teos/gatekeeper.py:351-367 | A new height is cached last and the oldest of eleven leaves; a known height changes nothing |
| Gatekeeper.Gatekeeper.DeleteOutdatedUsers | teos/cleaner.py:184-198 | Users leave memory and database together; it raises if and only if one is absent |
| Gatekeeper.Gatekeeper.OnBlock | teos/gatekeeper.py:141-149 | One block caches, then deletes, the outdated users |
| Gatekeeper.Gatekeeper.DeleteAppointments | teos/gatekeeper.py:369-380 | Slots are given back in memory and database |
| Gatekeeper.GiveBack | teos/cleaner.py:168-177 | The loop gives back every listed charge of every listed owner once, and touches only users it refunds |
| BlockProcessor.BlockProcessor.IsBlockInBestChain | teos/block_processor.py:238-267 | True exactly on the path to the tip; unknown blocks raise |
| BlockProcessor.BlockProcessor.FindLastCommonAncestor | teos/block_processor.py:269-296 | The result is the highest ancestor on the best chain, the dropped transactions are those of exactly the abandoned blocks, newest first, and it fails exactly when there is none |
| BlockProcessor.BlockProcessor.GetMissedBlocks | teos/block_processor.py:209-236 | The path to the given block followed by the result is the path to the tip; off the chain the result is the whole path |
| Teosd.MissedBy | teos/teosd.py:222-238 | Going back to the last common ancestor and forward again leads to the tip |
| Teosd.ReplayExtends | teos/block_processor.py:227-236 | The missed blocks follow each other from the common ancestor on, so neither component sees a reorg after it |
| Teosd.BootstrapComponents | teos/teosd.py:184-256 | With nothing stored, nothing is fed. Both components get exactly the blocks that lead them to the tip if and only if both stand there already, or something is stored and the Watcher is not further behind or the Responder misses nothing; it fails exactly when something is stored and one of the last blocks is unknown or off every shared chain |
| Teosd.ProcessFed | teos/builder.py:120-142 | Blocks fed to both components, in any order in which each extends what its component knows, leave the tower valid and each component at its last one, unless the Responder fails |
| Teosd.CatchUpTower | teos/teosd.py:213-256 | From last blocks on the best chain, with the Watcher not further behind, feeding the missed blocks leaves the tower valid at the tip, unless the Responder fails |
| Recovery.CatchUpKeepsInv | teos/teosd.py:213-256 | From any two last blocks on the best chain, also with the Watcher further behind, whose second feeding goes back once, feeding the missed blocks keeps the invariant throughout and ends with both components at the tip |
| Recovery.ReplayKeepsInv | teos/builder.py:136-142 | Without requests in between, blocks on top of the last one or processed before keep the invariant |
| Recovery.BehindMeetsReorgPath | teos/builder.py:129-142 | With the Watcher further behind, the first block the Responder is handed is below its last one, so it cannot go on if it tracks something |
| Teosd.Rebuild | teos/teosd.py:172-202 | New components over the two databases have the memory of the tower that stopped and satisfy the full invariant |
| Teosd.RespondToBlock | teos/responder.py:300-353 | On a valid tower, a block on top of the last one moves the Responder as the relation says and keeps the tower valid; if it fails, no state satisfies the relation, and what is left is that of a failed block |
| Teosd.ExpireSubscriptions | teos/gatekeeper.py:141-149 | The same for the Gatekeeper's block |
| Builder.BuildAppointments | teos/builder.py:11-42 | The summaries of all loaded appointments, with an exact index |
| Builder.BuildTrackers | teos/builder.py:44-77 | The summaries of all loaded trackers, with an exact index |
| Builder.PopulateBlockQueue | teos/builder.py:79-94 | The blocks are queued in order |
| Builder.UpdateStates | teos/builder.py:96-142 | The order in which both components process blocks, and an error exactly when one list is empty |
| Builder.SortedDifferenceFacts | teos/builder.py:123-132 | The sorted set difference has exactly the elements of one list that are not in the other, in order of first occurrence |
| Builder.WatcherGoesFirst | teos/builder.py:136-142 | In lock step the i-th block is processed by the Watcher and then by the Responder, before either gets the next one |
| Builder.ResponderBehindIsFed | teos/builder.py:120-142 | When the Responder is level or further behind, it first gets exactly the missing prefix; then both advance in lock step, Watcher first, each over exactly its missed blocks |
| Builder.WatcherBehindIsFedTwice | teos/builder.py:129-142 | When the Watcher is further behind, the blocks only it missed reach it twice, and the Responder as well |
| Builder.FedExactlyIff | teos/builder.py:120-142 | Each component gets exactly its missed blocks if and only if the Watcher is not further behind |
| ChainMonitor.RunKeepsOrder | teos/chain_monitor.py:104-231 | Under any interleaving of two producers, the notifier and termination: delivered, in-hand and pending messages are those enqueued, in order, and every receiving queue got the delivered ones |
| ChainMonitor.StartsInOrder | teos/chain_monitor.py:61-89 | A new monitor satisfies what these runs start from, whatever its receiving queues already hold |
| ChainMonitor.LockExcludesTips | teos/chain_monitor.py:104-182 | Under any interleaving, from the moment the notifier starts delivering a message until it is done, no producer appends a tip: only end messages are enqueued |
| ChainMonitor.RunKeepsWindow | teos/chain_monitor.py:105-110 | Under any interleaving the remembered tips are the last ten |
| ChainMonitor.RemembersTen | teos/chain_monitor.py:105-110 | A hash is remembered if and only if it is one of the last ten that were enqueued |
| ChainMonitor.TestFailsIff | teos/chain_monitor.py:104-110 | A membership test no longer holds at its append if and only if the same hash was enqueued in between and is still among the last ten |
| ChainMonitor.SpacedIff | teos/chain_monitor.py:104-110 | Equal tips are more than ten enqueues apart if and only if no producer appends a hash that was enqueued since its own test, at most ten tips ago |
| ChainMonitor.AtomicEnqueueSpaces | teos/chain_monitor.py:104-110 | With test and append in one action, equal tips are always more than ten enqueues apart |
| ChainMonitor.SameTipTwice | teos/chain_monitor.py:104-110 | As it is, an interleaving exists that enqueues one block twice in a row |
| ChainMonitor.StatusAdvances | teos/chain_monitor.py:184-231 | Under any interleaving the status never goes back, so at most one call starts the producers and at most one starts a notifier |
| ChainMonitor.SilentUntilActivated | teos/chain_monitor.py:184-222 | If and only if nobody has activated the monitor, the receiving queues are as they were and everything enqueued still waits, even after termination |
| ChainMonitor.TerminatedDeliversAtMostOne | teos/chain_monitor.py:176-182 | Once terminated, at most one more message is delivered |
| ChainMonitor.EndCanArriveIff | teos/chain_monitor.py:224-231 | The end message can still arrive if and only if the notifier was waiting on an empty queue when the monitor was terminated |
| ChainMonitor.EnqueueIsTestThenAppend | teos/chain_monitor.py:91-115 | The two actions of a producer without interference are one call of `enqueue` |
| ChainMonitor.NotifyIsARun | teos/chain_monitor.py:176-182 | The actions of one notifier iteration without interference are one call of `NotifyNext` |
| ChainMonitor.ChainMonitor.Enqueue | teos/chain_monitor.py:91-115 | Added if and only if not among the remembered tips, of which the oldest of eleven leaves |
| ChainMonitor.ChainMonitor.NotifyNext | teos/chain_monitor.py:176-182 | The first pending message goes to the end of every receiving queue |
| Plugin.RecordedOnceIff | watchtower-plugin/watchtower.py:409-466 | A revocation adds exactly one record for a tower that is not misbehaving (accepted, pending, invalid or proof) if and only if a reachable tower does not answer unexpectedly |
| Plugin.HookMeaning | watchtower-plugin/watchtower.py:414-466 | At a tower found reachable: it is queued for a retry if and only if it ends up temporarily unreachable; what is left pending there is queued, or a retry by hand is possible at once; accepting, or rejecting only the appointment, leaves it reachable; only an acceptance changes the recorded slots, to those it answered |
| Plugin.PassLeavesSuffix | watchtower-plugin/retrier.py:113-148 | A retry pass consumes a prefix of the pending list in order, records every appointment of it, and leaves exactly the unsent rest |
| PluginRuns.PassMeaning | watchtower-plugin/retrier.py:113-148 | A pass stops at the first appointment that is neither accepted nor rejected, and the answer to that one decides the result, the recorded status, the rest and the proof; with none, nothing is left pending and the tower is reachable |
| PluginRuns.PassRecords | watchtower-plugin/retrier.py:116-119 | The recorded slots are those of the last acceptance, and the receipt kept for a locator is that of the last acceptance of it |
| PluginRuns.ReachableAgrees | watchtower-plugin/watchtower.py:108-142 | Over any run, a tower that memory takes for reachable is recorded as reachable in the database |
| PluginRuns.StaysHeldIff | watchtower-plugin/watchtower.py:108-142 | A revocation, a retry pass, a retry by hand or giving up removes an appointment from the record of a tower if and only if a new proof overwrites the one that was its only trace |
| PluginRuns.TakenIsHeldIff | watchtower-plugin/watchtower.py:409-466 | A revocation is pending, invalid, accepted under its locator or in the proof afterwards if and only if the tower did not answer unexpectedly to something the record did not know |
| PluginRuns.AlwaysHeldIff | watchtower-plugin/retrier.py:95-148 | Over any run, with the status of the record deciding what a revocation does: every appointment taken in is held by the record at every moment if and only if no step is of those two kinds |
| PluginRuns.NothingIsLost | watchtower-plugin/retrier.py:95-148 | In particular with at most one wrong signature and no unexpected response |
| PluginRuns.ProofIffSignedWrong | watchtower-plugin/retrier.py:121-131 | A record has a proof if and only if it had one or the tower signed wrong in this step |
| PluginRuns.SecondProofLosesFirst | watchtower-plugin/watchtower.py:343-380 | A run from a new record, with two retries by hand, after which an appointment taken in is recorded nowhere |
| Plugin.WTClient.DoRetry | watchtower-plugin/retrier.py:95-148 | The loop over a snapshot leads to the result and status of a pass, in memory and database, and touches no other tower |
| Plugin.WTClient.OnCommitmentRevocation | watchtower-plugin/watchtower.py:384-468 | Every tower gets its own record until one raises, the hook completes if and only if none does, and the towers queued for a retry are exactly those it left temporarily unreachable |
| Plugin.WTClient.UpdateTowerState | watchtower-plugin/watchtower.py:108-142 | Memory and database get the same new record, which is said field by field; removing an absent pending appointment raises and changes nothing |
| Plugin.WTClient.RetryTower | watchtower-plugin/watchtower.py:343-380 | A retry is queued if and only if the tower is unreachable or has a subscription error, and something is pending; the status changes in memory only |

## Left out

- The Responder's reorg path (teos/responder.py:499-553), which the source itself calls incomplete; Responder runs are over blocks that extend its last one.
- Responder.Responder.OnBlock: requires a block on top of the last one unless nothing is tracked, because the other branch (teos/responder.py:335-343) is that reorg path.
- Teosd.RespondToBlock: requires the same of its block, for the same reason.
- A failed or timed-out query for the first tip in `monitor_chain` (teos/chain_monitor.py:199-205), which leaves the monitor listening without threads or without a tip.
- Threads and locks, except in `ChainMonitor`: steps are atomic elsewhere, so a request between the cache update and the lock of a Watcher block is not modelled.
- The state the Gatekeeper and the block feeding are left in after an exception: they are only shown to fail, and exactly when. For the Responder see `Orphans.RestartAfterFailure`.
- The order of iteration over dictionaries and sets, which the code leaves to Python: loops pick any element, and results are stated as sets where order comes from there.
- Updating a dictionary passed by reference: the `Cleaner` and `Builder` routines return the new dictionaries and the caller assigns them.
- `init` and `fix` of the locator cache share one loop (`Collect`): `fix` goes on asking for blocks below the first one, which changes nothing.
- A transaction that bitcoind reports as already in the chain without a confirmation count, where `int(None)` raises (teos/carrier.py:108).
- Ciphers, signatures, receipts, hashes and key formats beyond the test for a compressed public key: decryption and the signer of a request are parameters.
- LevelDB and JSON: a store is a map from flat keys to decoded values.
- gRPC, HTTP, ZMQ, the command line, configuration and logging, and read-only queries such as `get_appointment`: no state logic.
- The checks of `Inspector` on appointment fields, which come before the modelled request.
- The first start without a stored last block (teos/watcher.py:466-468): a fresh tower already knows the tip.
- Towers registering again at the plugin, which overwrites their record, and retries that run while revocations arrive.
- Plugin.WTClient.RetryTower: does not model the lock that stays taken when an unknown tower raises.
- What catching up leaves behind when a last block is off the best chain: the first block is then a reorg, for which `Runs.InvHoldsIff` gives the condition.
- What blocks do to a tower in which an appointment is both watched and tracked, beyond `Watcher.Watcher.AddAppointment`.
