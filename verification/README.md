# A verified model of the RealtimeChat agent and its speech packages

This project models the parts of the repository that keep a promise over whole
runs (across crashes, lost replies, retries, replicas with different clocks and
any interleaving) and proves those promises for the model. `dafny verify
dfyconfig.toml` checks everything.

| file | what it models |
|---|---|
| `EventSub.dfy`, `Protocol.dfy`, `Cloud.dfy`, `Migration.dfy`, `Chunks.dfy`, `Order.dfy`, `Run.dfy`, `Gaps.dfy` | the EventSub callback migration: the provider and the checkpoint, what an invocation may do, the code for one subscription, for one lease, for one invocation, and what any number of invocations keep |
| `Journal.dfy` | its state file and journal |
| `Api.dfy`, `Pacer.dfy` | its requests with retries, its paged listing and its request pacer |
| `Leases.dfy`, `Refresh.dfy`, `SubscriptionLock.dfy`, `Jobs.dfy` | a timed lease under clock skew, and the three protocols that refine it |
| `Queue.dfy`, `Reconcile.dfy` | the Twitch queue, and the work its items do |
| `Requests.dfy`, `Readers.dfy` | the request manager: workers and ready latch; keyed mutex and reader clients |
| `Hedge.dfy` | hedged document creation |
| `Speak.dfy`, `Chunker.dfy`, `ChunkEdges.dfy`, `Json.dfy`, `JsonText.dfy`, `Noise.dfy` | the speech packages: the iOS speak engine, the text chunker, the JSON reader with the grammar of RFC 8259, and the noise words |

Everything outside the process is nondeterministic. A provider request may take
effect although it is reported lost; a checkpoint append that fails may be on
disk; between any two requests other clients may act. Where the source has
several processes or threads, the model is a state machine whose steps are the
source's critical sections, transactions or messages, and the results are about
every run of it.

## What the migration guarantees

For every descriptor that was live at first, every state on the way is *guarded*:
something at one of the three known callbacks covers it, or an entry for it is
durably marked `SourceDeleted`. `Protocol.Legal` is a transition system over logs
of requests, durable writes and drift: it says which event may follow which.
`Cloud.Provider` keeps such a log and accepts nothing illegal, so each method of
`Migrator`, `Worker` and `Runner` that keeps `Valid` proves that all it does is
legal. A prefix of a log is a run that was cut off; `Protocol.Life` puts any
number of them in a row, each starting from what was then on disk, and
`Run.Lifetime` shows that whatever the code does is such a life. The results
about lives are in `Protocol` and `Gaps`: what was guarded stays so, a mark is
always found, and a run that ends with nothing remaining leaves no gap. Where a
claim fails, the witness is a life as well. A life fixes what each step may do,
not the order in which entries are visited; the witnesses follow the order of
the code, drift without a change left out.

The assumptions are written out as predicates: the provider drops nothing by
itself and does not disable an enabled subscription (`EventSub.Drifts`),
does not reuse ids, and lists truthfully (`Protocol.Truthful`).

## Where a stronger or documented claim is false

Each of these has a lemma with an input, or a family of inputs, for which the
claim fails, and the condition under which it holds: exactly, except that of the
stand-ins, which is an assumption about the provider.

- A checkpoint entry marked `DeletedOld` does not imply that its source is gone:
  the last listing of `awaitEnabled` may be partial: `Gaps.StaysBehind`.
  `Migration.Migrator.DeleteSource` says exactly when it is.
- Guarding is by descriptor, not by entry. It is by entry if and only if no two
  planned sources share a descriptor: `Gaps.EntriesIff`, with the runs that lose
  one of two in `Gaps.TwinGap`.
- A stand-in recreated by `restore` is not awaited: `Gaps.StandInMayFail`. As long
  as the provider fails none, guarded means active or marked:
  `EventSub.GuardedIsCovered`.
- A rollback that stops after marking leaves a mark that forward runs skip,
  because they look at `DeletedOld` first: `Gaps.ForwardPassesBy`. Which runs
  pick a mark up is exact in `Gaps.GapIsFound`; rollbacks always find it, and
  forward runs do as long as there was no rollback: `Gaps.MarkIsFound`.
- The comments of the three lease users promise exclusion; it holds exactly
  within the margins of `Refresh.MarginIsExact`, `SubscriptionLock.MarginIsExact`
  and `Jobs.MarginIsExact`. A migration that restores works up to 30 seconds
  past its deadline (`agent/internal/eventsubmigration/migrate.go:781-805`), which
  leaves 15 of the lock's 45 seconds.
- A completed slot of a job can run again, even without clock skew, once another
  slot was completed: `Jobs.SlotRunsTwice`, `Jobs.AgainAfterAnother` and, exactly,
  `Jobs.RunsAgainIff`. It cannot if no clock is read in the last 15 seconds plus
  skew of its slot, and no shorter time will do: `Jobs.OnceIff`.
- A creation that took effect can be reported as a plain error:
  `Api.HiddenCreations`. It is exactly when the body of a success cannot be read
  or does not list one subscription: `Api.HiddenIff`.
- The chunker's comment promises chunks of at most `maxLength` units
  (`packages/on_device_tts/ios/on_device_tts/OnDeviceTtsCore/Sources/OnDeviceTtsCore/Supertonic/SupertonicTextProcessor.swift:253-256`).
  They can have one more (`ChunkEdges.OneOver`), exactly as `ChunkEdges.OverIff`
  says. An oversized part overtakes a shorter one before it
  (`ChunkEdges.OutOfOrder`), exactly as `ChunkEdges.OrderIff` says. A chunk can be
  empty (`ChunkEdges.EmptyChunk`), exactly as `ChunkEdges.EmptyIff` says.
- `twitchConditions` wants one subscription twice for an empty id:
  `Reconcile.DistinctIff`.

## Model

| member | source | states |
|---|---|---|
| `EventSub.DriftKeeps` | agent/internal/eventsubmigration/migrate.go:596-653 | whatever the provider and other clients do between two requests, no covered descriptor loses its cover and no mark is lost |
| `EventSub.PostKeeps` | agent/internal/eventsubmigration/api.go:180-190 | a creation opens no gap, whether or not its reply arrives |
| `EventSub.DropKeeps` | agent/internal/eventsubmigration/migrate.go:717-737 | a deletion opens no gap if the descriptor is marked, or something else covers it |
| `EventSub.RecordKeeps` | agent/internal/eventsubmigration/migrate.go:227-233 | a checkpoint write opens no gap if it lowers the mark, or replaces the stand-in, only while something covers the descriptor |
| `EventSub.GuardedIsCovered` | agent/internal/eventsubmigration/migrate.go:781-805 | a guarded descriptor has an active match at one of the three known callbacks or is durably marked, as long as the provider failed no stand-in |
| `Protocol.GuardLasts` | agent/internal/eventsubmigration/migrate.go:596-913 | a guarded descriptor stays guarded through every legal series of requests, checkpoint writes and drift of one run |
| `Protocol.LifeIsSafe` | agent/cmd/migrate-eventsub/main.go:145-280 | and through any number of runs, forward or back, each cut off after any step |
| `Protocol.DeletionIsSpare` | agent/internal/eventsubmigration/migrate.go:717-737 | a permitted deletion leaves every guarded descriptor guarded: by a replacement seen enabled, by the saved mark, or by what covered it before a failed creation |
| `Protocol.ForwardTakesListed` | agent/internal/eventsubmigration/migrate.go:717-776 | a forward deletion that is not of a failed creation takes a source or its recorded stand-in, listed before with the backed-up descriptor and callback and still so, while a replacement is enabled or the mark is on disk |
| `Protocol.RollbackSpares` | agent/internal/eventsubmigration/migrate.go:819-913 | a rollback deletes no id of the snapshot |
| `Protocol.RollbackTakesListed` | agent/internal/eventsubmigration/migrate.go:819-913 | what it deletes, but for a failed creation, was listed at the target with the backed-up descriptor and is still so, while the legacy subscription is enabled or the mark is on disk |
| `Protocol.ResultsAreEarned` | agent/internal/eventsubmigration/migrate.go:717-913 | an entry becomes moved only while a replacement is enabled at the target, rolled back only while one is at its old callback or if nothing was done for it, and a mark is lowered only with one of these or for a stand-in just created |
| `Gaps.EntriesIff` | agent/internal/eventsubmigration/migrate.go:738-913 | every planned entry that was live stays covered or marked under its own id, in every series of cut-off runs, if and only if no two planned sources share a descriptor |
| `Gaps.TwinGap` | agent/internal/eventsubmigration/migrate.go:879-913 | for any two that do, a forward run and a rollback cut off leave the second entry neither covered nor marked, though the first's mark guards their descriptor |
| `Gaps.MarkIsFound` | agent/internal/eventsubmigration/migrate.go:253-314 | in every series of cut-off runs a mark is on the list of the next rollback below the attempt limit, or its entry is rolled back and a subscription enabled at its own callback; if all runs were forward, it is on the list of the next forward run, which goes ahead |
| `Gaps.GapsAreFinished` | agent/internal/eventsubmigration/migrate.go:261-367 | once every planned entry is rolled back, or after only forward runs moved, every descriptor that was live is covered, whatever marks there were |
| `Gaps.Finish` | agent/cmd/migrate-eventsub/main.go:145-280 | any series of cut-off runs followed by a run that ends with nothing remaining leaves no gap |
| `Gaps.GapIsFound` | agent/internal/eventsubmigration/migrate.go:253-314 | a marked entry is on the to-do list of a run if and only if it is not finished in that direction and is below the attempt limit, or failures are retried |
| `Gaps.ForwardPassesBy` | agent/internal/eventsubmigration/migrate.go:253-260 | for every planned source: a forward run and a rollback cut off after marking leave it marked and uncovered, and no forward run has it on its list |
| `Gaps.StandInMayFail` | agent/internal/eventsubmigration/migrate.go:781-805 | for every planned source: a restored stand-in that the provider fails leaves its descriptor neither active nor marked, so that condition is needed |
| `Gaps.StaysBehind` | agent/internal/eventsubmigration/migrate.go:657-737 | for any two planned sources of a broadcaster: a partial last listing hides a live source while its entry is recorded as moved |
| `Cloud.ClearedLasts` | agent/internal/eventsubmigration/migrate.go:657-737 | a clearance stays valid while its replacement lives and its mark stays |
| `Cloud.PermitsDrifts` | agent/internal/eventsubmigration/migrate.go:862-878 | a permitted deletion stays permitted if the world drifts before it is sent |
| `Cloud.Provider.List` | agent/internal/eventsubmigration/api.go:145-179 | whatever is listed is truthful; without an error the listing is complete; it changes nothing durable |
| `Cloud.Provider.Create` | agent/internal/eventsubmigration/api.go:180-190 | a creation takes effect although its reply is lost, or not at all; a reported success is a fresh id with the wanted descriptor |
| `Cloud.LateCreation` | agent/internal/eventsubmigration/api.go:104-116 | a creation that takes effect only after it was reported lost is among the drifts that every result allows |
| `Cloud.Provider.Delete` | agent/internal/eventsubmigration/api.go:191-193 | a deletion may take effect although reported failed; it must be permitted; on success the id is gone |
| `Cloud.Provider.Append` | agent/internal/eventsubmigration/journal.go:97-111 | only the writes that the code makes, for unfinished entries; an update that is acknowledged is on disk, one that failed may be |
| `Migration.Find` | agent/internal/eventsubmigration/migrate.go:164-180 | returns an enabled match if there is one, else a pending one, else none |
| `Migration.Migrator.AwaitOne` | agent/internal/eventsubmigration/migrate.go:483-523 | success means that the wanted id is enabled now with the wanted descriptor and callback |
| `Migration.Migrator.Replacement` | agent/internal/eventsubmigration/migrate.go:444-482 | an active match at the callback: the listed one without any request if the listing shows one, otherwise found after a conflict or created |
| `Migration.Migrator.Adopt` | agent/internal/eventsubmigration/migrate.go:596-653 | records the destination, as the migration's own unless it is in the backup, and leaves marks, attempts and results of all entries alone |
| `Migration.Migrator.Prepare` | agent/internal/eventsubmigration/migrate.go:596-653 | the destination of a make-before-break, which is the listed one if one is shown; break-before-make only if none is shown; deletes nothing |
| `Migration.Migrator.AwaitEnabled` | agent/internal/eventsubmigration/migrate.go:657-714 | every target ends seen enabled, and still so, or with a failure; the last listing is truthful although it may be partial |
| `Migration.Migrator.DeleteSource` | agent/internal/eventsubmigration/migrate.go:717-737 | an entry recorded as moved has its replacement enabled; its source is gone if and only if the last listing showed it or it was gone before |
| `Migration.Migrator.Restore` | agent/internal/eventsubmigration/migrate.go:781-805 | always reports the failure; puts a recorded stand-in in place before it lowers the mark, and touches no other entry |
| `Migration.Migrator.FlagAndDelete` | agent/internal/eventsubmigration/migrate.go:745-759 | the source is deleted only after its mark was saved, and on success it is gone |
| `Migration.Migrator.BreakBeforeMake` | agent/internal/eventsubmigration/migrate.go:738-776 | success records the entry as moved and unmarked, with the source gone and a replacement enabled; failure leaves its result and attempts as they were; every request and write in between is legal |
| `Migration.Migrator.Rollback` | agent/internal/eventsubmigration/migrate.go:828-861 | success records the entry as rolled back, and no destination that the migration had made for its descriptor is left |
| `Migration.Migrator.RollbackBreakFirst` | agent/internal/eventsubmigration/migrate.go:879-913 | the destinations are deleted only under a saved mark, and success has retired all of them |
| `Migration.Migrator.RetireOwned` | agent/internal/eventsubmigration/migrate.go:848-861 | destinations are deleted only once the legacy subscription was seen enabled |
| `Chunks.LedgerMoves` | agent/internal/eventsubmigration/migrate.go:404-441 | settling a waiting subscription as moved keeps the partition of the chunk and agrees with the checkpoint |
| `Chunks.LedgerLoses` | agent/internal/eventsubmigration/migrate.go:404-441 | settling one as failed keeps the partition, and its entry stays unfinished |
| `Chunks.WaitingIsFresh` | agent/internal/eventsubmigration/snapshot.go:49-65 | ids being distinct, what still waits has not settled under its id |
| `Chunks.Worker.Settle` | agent/internal/eventsubmigration/migrate.go:404-441 | each subscription settles in exactly one way, with exactly one count; a failure adds one attempt; an uncertain one interrupts the chunk |
| `Chunks.Worker.PrepareAll` | agent/internal/eventsubmigration/migrate.go:534-556 | every subscription read is settled, prepared or set aside, and the work allowed is not exceeded |
| `Chunks.Worker.ForwardChunk` | agent/internal/eventsubmigration/migrate.go:524-586 | a chunk settles at least one subscription and hands back the rest, within its limit |
| `Chunks.Worker.RollbackChunk` | agent/internal/eventsubmigration/migrate.go:806-818 | the same for a rollback chunk |
| `Order.SortSorts` | agent/internal/eventsubmigration/migrate.go:111-147 | what the order of groups and of the subscriptions in each relies on, for any strict weak order |
| `Order.OrdersAreStrict` | agent/internal/eventsubmigration/migrate.go:111-147 | the two comparisons are strict weak orders |
| `Order.Arrange` | agent/internal/eventsubmigration/migrate.go:111-147 | the queue holds exactly the planned subscriptions, one group a broadcaster, most recently active first, each group by id |
| `Run.Runner.RunChunk` | agent/internal/eventsubmigration/migrate.go:315-356 | every chunk leaves less to do, so the error for a chunk without progress cannot occur |
| `Run.Runner.Serve` | agent/internal/eventsubmigration/migrate.go:307-365 | an interrupted group is queued again with fewer subscriptions, or nothing of it is |
| `Run.Runner.Execute` | agent/internal/eventsubmigration/migrate.go:261-367 | a run ends; moved plus failed keep to the limit; without an error every planned subscription is in exactly one of already done, skipped, moved, failed or cost-blocked, the counters count them and the checkpoint agrees; every request and write was legal, every state guards what was guarded at first, and a rollback deleted nothing of the snapshot; with nothing remaining every planned entry is finished on disk |
| `Run.LedgerPartitions` | agent/internal/eventsubmigration/migrate.go:261-367 | a finished ledger is the five-way partition of the plan |
| `Run.PartitionedCounts` | agent/internal/eventsubmigration/migrate.go:55-66 | the summary's counters add up to the plan, and what remains is skipped, failed and cost-blocked |
| `Run.Validate` | agent/internal/eventsubmigration/snapshot.go:49-65 | accepts exactly snapshots of this schema, client and callbacks whose ids are present and distinct, whose types and versions are present, and whose conditions are objects |
| `Run.Lifetime` | agent/cmd/migrate-eventsub/main.go:145-280 | any number of runs, forward or back, each cut off after any step, make a legal series, and what was guarded stays guarded |
| `Journal.LoadsIff` | agent/internal/eventsubmigration/journal.go:23-65 | exactly which journals load: header of this snapshot, then whole updates, and at most one torn line at the very end |
| `Journal.ScanReads` | agent/internal/eventsubmigration/journal.go:23-65 | what a writer left is read back as the updates it made |
| `Journal.LastWins` | agent/internal/eventsubmigration/journal.go:53-64 | replay gives every entry its last update, and leaves the others |
| `Journal.ReplayTwice` | agent/internal/eventsubmigration/journal.go:67-76 | replaying a journal over a state file that already contains it changes nothing |
| `Journal.Disk.Load` | agent/internal/eventsubmigration/journal.go:23-65 | returns what the two files keep; a foreign state file or journal, or a damaged line, is an error |
| `Journal.Disk.Compact` | agent/internal/eventsubmigration/journal.go:67-76 | whatever step it stops at, the next load returns the same |
| `Journal.Disk.Append` | agent/internal/eventsubmigration/journal.go:97-111 | acknowledged means durable; otherwise the update is kept whole or not at all |
| `Journal.RunSession` | agent/cmd/migrate-eventsub/main.go:187-280 | a run's loaded value, plus its acknowledged updates and at most the one under way, is what the next run loads |
| `Journal.Sessions` | agent/cmd/migrate-eventsub/main.go:187-280 | any number of runs, each stopped anywhere: every load succeeds and returns all that reached the disk before |
| `Journal.LastAcknowledged` | agent/internal/eventsubmigration/journal.go:23-110 | an entry's value after any series of crashes is its last acknowledged one, unless a later unacknowledged update, the last of its run, took its place |
| `Leases.NextKeeps` | agent/internal/subscriptionlock/lock.go:70-177 | a granted lease stays its owner's while no clock can see it expired |
| `Leases.WorkersHold` | agent/internal/subscriptionlock/lock.go:70-177 | whoever works holds the lease, so at most one works |
| `Refresh.TokenDoc.Acquire` | agent/internal/provider/firestore.go:39-60 | acquires if and only if the stored grant is the claimed one and no live lease is seen |
| `Refresh.TokenDoc.Finish` | agent/internal/provider/firestore.go:61-95 | refuses unless the lease is the claim's; replaces or removes the grant only if it is still the claimed one |
| `Refresh.Refines` | agent/internal/provider/service.go:162-238 | every step of the refresh protocol is a step of the abstract lease or leaves it alone |
| `Refresh.CallRefines` | agent/internal/provider/service.go:196-206 | the check before the provider is called is what makes the call fit its lease |
| `Refresh.MarginIsExact` | agent/internal/provider/service.go:25-39 | two provider calls overlap in no run if and only if clock skew and settling time together are at most the 30-second safety window |
| `Refresh.OnlyItsOwnGrant` | agent/internal/provider/firestore.go:61-95 | a refresh result only ever replaces the exact grant it was derived from |
| `Refresh.Service.AccessToken` | agent/internal/provider/service.go:162-238 | ends by its deadline; a returned token was stored and usable when read; all it does are steps of a legal run |
| `Refresh.Service.CallProvider` | agent/internal/provider/service.go:207-235 | after a failure that may have consumed the grant the lease is kept; what it does are steps of a legal run |
| `SubscriptionLock.LeaseDoc.Take` | agent/internal/subscriptionlock/lock.go:88-109 | takes the lease if and only if none is live on this clock; otherwise work may go beside a holder whose job allows it |
| `SubscriptionLock.LeaseDoc.Release` | agent/internal/subscriptionlock/lock.go:155-170 | deletes the lease if and only if it is the owner's |
| `SubscriptionLock.Refines` | agent/internal/subscriptionlock/lock.go:70-177 | every step is a step of the abstract lease or leaves it alone |
| `SubscriptionLock.MarginIsExact` | agent/internal/subscriptionlock/lock.go:29-34 | two holders work at once in no run if and only if commit latency, clock skew and overrun together are at most 45 seconds |
| `SubscriptionLock.RetainedStaysClosed` | agent/internal/subscriptionlock/lock.go:146-154 | after an uncertain mutation or an expired deadline nobody can take the key until a clock can see the lease expired |
| `SubscriptionLock.OnlyItsOwner` | agent/internal/subscriptionlock/lock.go:155-170 | a stale release frees nobody else's lease |
| `Jobs.JobLease.Acquire` | agent/internal/jobs/runner.go:31-56 | acquires if and only if the slot is not the completed one and the lease has expired on this clock; keeps the completed slot |
| `Jobs.FinishRefines` | agent/internal/jobs/runner.go:57-64 | the write of Finish names no owner, yet what it removes is its own lease |
| `Jobs.MarginIsExact` | agent/internal/jobs/runner.go:120-142 | two replicas run a job at once in no run if and only if clock skew and settling are at most 35 seconds, whatever the timeout |
| `Jobs.FinishIsSafe` | agent/internal/jobs/runner.go:57-64 | within that margin Finish clears only its own lease, and nobody works on a completed slot |
| `Jobs.AgainAfterAnother` | agent/internal/jobs/runner.go:31-33 | within the margin, a completed slot is worked on again only after another slot's completion was recorded |
| `Jobs.RunsAgainIff` | agent/internal/jobs/runner.go:31-33 | whoever comes next may work on a slot, no completion being recorded meanwhile, if and only if it is not the one recorded as completed |
| `Jobs.OnceIff` | agent/internal/jobs/runner.go:86-142 | no completed slot is worked on again in any run in which no clock is read in the last so many milliseconds of its slot, if and only if that is at least 15 seconds plus the clock skew |
| `Jobs.SlotRunsTwice` | agent/internal/jobs/runner.go:31-33 | with less, a run in which one is, also without skew |
| `Queue.TwitchQueue.Enqueue` | agent/internal/subscriptions/queue.go:154-193 | its whole effect on the queue, as specified by `Asked` |
| `Queue.TwitchQueue.Deauthorized` | agent/internal/subscriptions/queue.go:133-143 | ignores a revocation within five minutes of a removal, and otherwise asks for one |
| `Queue.TwitchQueue.TakeNext` | agent/internal/subscriptions/queue.go:332-357 | takes the oldest item that may run, by channel when equally old; otherwise a delay that no waiting item outlasts |
| `Queue.TwitchQueue.Finish` | agent/internal/subscriptions/queue.go:425-504 | its whole effect on the queue, as specified by `Ended` |
| `Queue.NextKeeps` | agent/internal/subscriptions/queue.go:154-504 | at most one item runs, capacity and attempts are bounded, a changed item is a running one |
| `Queue.LatestIntentWins` | agent/internal/subscriptions/queue.go:149-193 | from a request on, its job stays queued until a run started after it ends for good or another job is asked for |
| `Queue.RemovalIsOwed` | agent/internal/subscriptions/queue.go:166-173 | every accepted removal counts as new, even while one is running |
| `Queue.RemovalStays` | agent/internal/subscriptions/queue.go:394-504 | so a removal stays queued until a removal run started after it completes, is dropped or finds the broadcaster re-authorized, unless a reconcile replaces it |
| `Queue.ReconcileIsOwed` | agent/internal/subscriptions/queue.go:162-192 | an accepted reconcile counts as new if and only if no unsuperseded reconcile is running |
| `Queue.ReconcileAfterRemoval` | agent/internal/subscriptions/queue.go:149-193 | a reconcile requested while a removal is pending is run after that request |
| `Queue.ReconcileRemembered` | agent/internal/subscriptions/queue.go:456-465 | once a reconcile was requested, a removal that finds the broadcaster re-authorized does not drop the item |
| `Reconcile.SameCondition` | agent/internal/subscriptions/twitch.go:185-197 | holds if and only if the conditions are equal once empty values are dropped |
| `Reconcile.DistinctIff` | agent/internal/subscriptions/twitch.go:160-179 | no two wanted entries are the same subscription if and only if the id is not empty |
| `Reconcile.NeverTwo` | agent/internal/subscriptions/twitch.go:254-324 | no request makes a second active match of anything |
| `Reconcile.Provider.Create` | agent/internal/subscriptions/twitch.go:289-293 | a POST may take effect although reported lost, and is sent only where nothing active matches |
| `Reconcile.Provider.Remove` | agent/internal/subscriptions/twitch.go:283-287 | a DELETE is sent only for what is ours and, in a reconcile, not active |
| `Reconcile.Conflicts` | agent/internal/subscriptions/twitch.go:264-272 | true if and only if some match of a wanted entry is at a foreign callback |
| `Reconcile.Clear` | agent/internal/subscriptions/twitch.go:273-288 | deletes failed matches up to the first active one; leaves an entry whose first match is active alone |
| `Reconcile.Pass` | agent/internal/subscriptions/twitch.go:254-324 | after a pass without error, skips or holds every wanted entry is active; a pass over such a state only lists; it ends with an error only if a request failed, or, having changed nothing, if something wanted is delivered to a foreign callback |
| `Reconcile.PassTwice` | agent/internal/subscriptions/twitch.go:254-324 | after a clean pass the next one sends neither a POST nor a DELETE |
| `Reconcile.WantedTargets` | agent/internal/subscriptions/twitch.go:328-336 | whatever is created for a broadcaster is removed with them |
| `Reconcile.RemoveAll` | agent/internal/subscriptions/twitch.go:380-402 | deletes nothing foreign; without an error nothing of the broadcaster's is left; where nothing is left it only lists |
| `Requests.OneWorkerKept` | agent/cmd/requests.go:65-94 | a channel keeps at most one worker, and has one exactly while it is marked running |
| `Requests.InOrderKept` | agent/cmd/requests.go:65-94 | what is picked up is an ordered part of what was submitted, and the last submission is waiting or was the last picked up |
| `Requests.Coalesces` | agent/cmd/requests.go:65-94 | in every run: one worker a channel, changes applied in the order submitted, some left out |
| `Requests.LastApplied` | agent/cmd/requests.go:65-94 | once the workers are gone, nothing waits and the last change submitted is the last applied |
| `Requests.FiresOnce` | agent/cmd/ready.go:9-55 | the callback runs at most once, only after sealing and after every first-snapshot channel was applied; and it has run once workers and check are done |
| `Requests.RequestQueue.Submit` | agent/cmd/requests.go:65-76 | its critical section, and whether a worker is started |
| `Requests.InitialJoins.Check` | agent/cmd/ready.go:45-55 | its critical section, and whether the callback runs |
| `Readers.MutexIsExact` | agent/cmd/main.go:75-100 | in every run at most one call holds a key, and the map has an entry exactly while some call uses it |
| `Readers.NoReaderIsLost` | agent/cmd/requests.go:97-149 | a reader is closed at most once and never while it is known; when no call is under way each reader ever opened is the known one or was closed exactly once |
| `Readers.KeyedMutex.Enter` | agent/cmd/main.go:84-90 | the lookup under the map's mutex: one lock a key, one more user |
| `Readers.KeyedMutex.Leave` | agent/cmd/main.go:92-99 | the end: one user fewer, and the entry goes with the last |
| `Readers.CountedKept` | agent/cmd/main.go:84-100 | the user counts are exact through every step |
| `Readers.PlacedKept` | agent/cmd/requests.go:97-149 | every reader stays in exactly one place through every step |
| `Hedge.Write.Create` | agent/internal/chatmessage/create.go:26-77 | at most three attempts; always something to wait for; success only if the document exists; duplicate only if no attempt of this call created it; gives up on transient failures only when cancelled or when all three failed |
| `Speak.Engine.End` | packages/on_device_tts/ios/on_device_tts/OnDeviceTtsCore/Sources/OnDeviceTtsCore/OnnxTtsEngine.swift:371-383 | its whole effect: one completion and one terminal event if the utterance is current, else nothing |
| `Speak.Engine.Schedule` | packages/on_device_tts/ios/on_device_tts/OnDeviceTtsCore/Sources/OnDeviceTtsCore/OnnxTtsEngine.swift:301-332 | its whole effect: a stale or cancelled buffer is dropped, and one that cannot play ends the utterance |
| `Speak.Engine.Reported` | packages/on_device_tts/ios/on_device_tts/OnDeviceTtsCore/Sources/OnDeviceTtsCore/OnnxTtsEngine.swift:310-316 | its whole effect on the counters, the gate and the end |
| `Speak.Engine.Stop` | packages/on_device_tts/ios/on_device_tts/OnDeviceTtsCore/Sources/OnDeviceTtsCore/OnnxTtsEngine.swift:358-369 | its whole effect: cancelled, gate closed, ended |
| `Speak.StepKeeps` | packages/on_device_tts/ios/on_device_tts/OnDeviceTtsCore/Sources/OnDeviceTtsCore/OnnxTtsEngine.swift:194-382 | every block on the main queue, callback and gate operation keeps the invariant |
| `Speak.Utterances` | packages/on_device_tts/ios/on_device_tts/OnDeviceTtsCore/Sources/OnDeviceTtsCore/OnnxTtsEngine.swift:194-382 | one completion and one terminal event per accepted utterance, no later than it stops being current; at most two buffers ahead; done only after every buffer made was scheduled and reported |
| `Speak.NeverStuck` | packages/on_device_tts/ios/on_device_tts/OnDeviceTtsCore/Sources/OnDeviceTtsCore/OnnxTtsEngine.swift:194-382 | while an utterance is current a buffer plays, a block waits, or its synthesis can pass the gate |
| `Speak.GateCounts` | packages/on_device_tts/ios/on_device_tts/OnDeviceTtsCore/Sources/OnDeviceTtsCore/OnnxTtsEngine.swift:421-457 | the gate of the current utterance counts exactly its buffers on the way, so the floor in release is never needed |
| `Chunker.Chunk` | packages/on_device_tts/android/src/main/kotlin/com/muxable/ondevicetts/supertonic/TextChunker.kt:62-147 | the loops compute the specified chunks |
| `Chunker.PackParts` | packages/on_device_tts/android/src/main/kotlin/com/muxable/ondevicetts/supertonic/TextChunker.kt:89-126 | the loop over comma parts, with its running length |
| `Chunker.PackWords` | packages/on_device_tts/android/src/main/kotlin/com/muxable/ondevicetts/supertonic/TextChunker.kt:93-112 | the loop over words, with its running length |
| `Chunker.NothingIsLost` | packages/on_device_tts/android/src/main/kotlin/com/muxable/ondevicetts/supertonic/TextChunker.kt:62-147 | characters other than white space and commas come out as often as they went in |
| `Chunker.OrderIsKept` | packages/on_device_tts/android/src/main/kotlin/com/muxable/ondevicetts/supertonic/TextChunker.kt:62-147 | and in order, if in no sentence that has to be cut at commas an oversized part is met while another is held back |
| `Chunker.ShortPartsKeepOrder` | packages/on_device_tts/android/src/main/kotlin/com/muxable/ondevicetts/supertonic/TextChunker.kt:62-147 | in particular whenever no comma part of such a sentence exceeds the limit |
| `ChunkEdges.OrderIff` | packages/on_device_tts/android/src/main/kotlin/com/muxable/ondevicetts/supertonic/TextChunker.kt:89-126 | the parts of a sentence come out in order if and only if no oversized one is met while another is held back; finished chunks hold exactly the parts that are out, in that order |
| `Chunker.ChunksFit` | packages/on_device_tts/android/src/main/kotlin/com/muxable/ondevicetts/supertonic/TextChunker.kt:62-147 | each chunk has at most one unit more than the limit or is a word without white space; none is empty if trimming drops only what the expressions take for white space |
| `ChunkEdges.OverIff` | packages/on_device_tts/android/src/main/kotlin/com/muxable/ondevicetts/supertonic/TextChunker.kt:62-147 | for every text and limit, a chunk over the limit that is not one word comes out if and only if some comma join leaves no unit to spare |
| `ChunkEdges.LimitKept` | packages/on_device_tts/android/src/main/kotlin/com/muxable/ondevicetts/supertonic/TextChunker.kt:62-147 | so the limit is kept, but for single words, when no sentence that is too long holds a comma |
| `ChunkEdges.EmptyIff` | packages/on_device_tts/ios/on_device_tts/OnDeviceTtsCore/Sources/OnDeviceTtsCore/Supertonic/SupertonicTextProcessor.swift:242-248 | for every limit, and expressions that leave runs of words alone: no text gives an empty chunk if and only if whatever trimming drops is white space to the expressions |
| `ChunkEdges.EmptyChunk` | packages/on_device_tts/ios/on_device_tts/OnDeviceTtsCore/Sources/OnDeviceTtsCore/Supertonic/SupertonicTextProcessor.swift:286-303 | a character that is trimmed but not white space gives an empty chunk, at every limit: a text for each |
| `ChunkEdges.OneOver` | packages/on_device_tts/android/src/main/kotlin/com/muxable/ondevicetts/supertonic/TextChunker.kt:114-124 | a concrete text whose chunk is one unit over the limit |
| `ChunkEdges.OutOfOrder` | packages/on_device_tts/android/src/main/kotlin/com/muxable/ondevicetts/supertonic/TextChunker.kt:93-125 | a concrete text whose oversized part overtakes a short one before it |
| `Json.ParseText` | packages/on_device_tts/android/src/main/kotlin/com/muxable/ondevicetts/supertonic/Json.kt:15-22 | terminates on every text without reading outside it, and computes the specified result |
| `Json.Reader.ReadValue` | packages/on_device_tts/android/src/main/kotlin/com/muxable/ondevicetts/supertonic/Json.kt:25-37 | reads what `Any` specifies and ends where it says |
| `Json.Reader.ReadObject` | packages/on_device_tts/android/src/main/kotlin/com/muxable/ondevicetts/supertonic/Json.kt:39-64 | the same for an object |
| `Json.Reader.ReadArray` | packages/on_device_tts/android/src/main/kotlin/com/muxable/ondevicetts/supertonic/Json.kt:66-86 | the same for an array |
| `Json.Reader.ReadString` | packages/on_device_tts/android/src/main/kotlin/com/muxable/ondevicetts/supertonic/Json.kt:88-116 | the same for a string and its escapes |
| `Json.Reader.ReadNumber` | packages/on_device_tts/android/src/main/kotlin/com/muxable/ondevicetts/supertonic/Json.kt:118-139 | the same for a number |
| `JsonText.ParseReads` | packages/on_device_tts/android/src/main/kotlin/com/muxable/ondevicetts/supertonic/Json.kt:15-22 | every text that RFC 8259, sections 2 to 7, allows, with any white space and any escapes, is read as what it means, integers in the range of a Long |
| `JsonText.ValueIsWritten` | packages/on_device_tts/android/src/main/kotlin/com/muxable/ondevicetts/supertonic/Json.kt:3-10 | every such value is the meaning of some text, so the round trip reaches all |
| `JsonText.LastKeyWins` | packages/on_device_tts/android/src/main/kotlin/com/muxable/ondevicetts/supertonic/Json.kt:39-64 | the last duplicate key wins |
| `JsonText.StringReads` | packages/on_device_tts/android/src/main/kotlin/com/muxable/ondevicetts/supertonic/Json.kt:88-116 | a quoted string is read back whatever escapes were chosen |
| `Noise.UnmixMixes` | packages/on_device_tts/ios/on_device_tts/OnDeviceTtsCore/Sources/OnDeviceTtsCore/NoiseGenerator.swift:30-36 | the mixing of a word has an inverse, on both sides |
| `Noise.WordsDiffer` | packages/on_device_tts/ios/on_device_tts/OnDeviceTtsCore/Sources/OnDeviceTtsCore/NoiseGenerator.swift:30-36 | no two of the first 2^64 words are equal, from any seed |
| `Noise.EveryWordComes` | packages/on_device_tts/ios/on_device_tts/OnDeviceTtsCore/Sources/OnDeviceTtsCore/NoiseGenerator.swift:30-36 | every word is among the first 2^64, from any seed |
| `Noise.MixesAgree` | packages/on_device_tts/android/src/main/kotlin/com/muxable/ondevicetts/supertonic/NoiseGenerator.kt:27-33 | Kotlin's signed arithmetic gives the bits of Swift's unsigned arithmetic |
| `Noise.MakeBoth` | packages/on_device_tts/android/src/main/kotlin/com/muxable/ondevicetts/supertonic/NoiseGenerator.kt:24-33 | both generators make the same bits, word by word |
| `Noise.UniformIsFine` | packages/on_device_tts/android/src/main/kotlin/com/muxable/ondevicetts/supertonic/NoiseGenerator.kt:35-35 | a uniform is a multiple of 2^-53 in [0, 1) |
| `Noise.UniformIsEven` | packages/on_device_tts/android/src/main/kotlin/com/muxable/ondevicetts/supertonic/NoiseGenerator.kt:35-35 | every such multiple is reached, by 2048 words each |
| `Pacer.RoundingFits` | agent/internal/eventsubmigration/pacer.go:36-43 | although the interval is rounded down, rate plus one intervals exceed a minute, for rates from 1 to 800 |
| `Pacer.WindowHolds` | agent/internal/eventsubmigration/pacer.go:113-131 | no minute has more than rate plus one grants |
| `Pacer.WindowIsReached` | agent/internal/eventsubmigration/pacer.go:36-43 | and that many can happen, so the bound is exact |
| `Pacer.Pacer.Wait` | agent/internal/eventsubmigration/pacer.go:113-131 | a grant is spaced from the one before; on a low bucket it waits for the reset or two minutes; an error grants nothing |
| `Pacer.Pace` | agent/cmd/migrate-eventsub/main.go:54-54 | the bound for any number of requests with any observations between them |
| `Api.Request` | agent/internal/eventsubmigration/api.go:87-144 | the loop ends as specified |
| `Api.RequestIsCertain` | agent/internal/eventsubmigration/api.go:87-144 | however the world plays: at most four attempts; a POST takes effect at most once; a failure not reported uncertain had no effect; a body that cannot be read comes only from a success |
| `Api.HiddenIff` | agent/internal/eventsubmigration/api.go:180-190 | a creation that took effect is reported as a plain error exactly after a success whose body cannot be read or does not list exactly one subscription |
| `Api.HiddenCreations` | agent/internal/eventsubmigration/api.go:180-190 | both happen: a concrete series of replies for each |
| `Api.List` | agent/internal/eventsubmigration/api.go:145-179 | every subscription of every page read, each id once; success means the last page named no next and no cursor repeated |

## Left out

- HTTP, Firestore, Secret Manager, IRC and websocket transport: replaced by nondeterministic replies and atomic transactions.
- Hashing, signatures, random owner ids and JSON encoding of checkpoints: hashes and ids are opaque values, owners are fresh numbers, a journal line is whole or torn; the scanner's limit on the length of a line is not modelled.
- Time budgets of the migration (lease deadline, chunk budget, verification timeout, rate budget) and cancellation: arbitrary choices at each point where the source looks at them.
- Cloud.Provider.Delete: does not let a deletion that was reported failed take effect after the next request; the source keeps the broadcaster's lease until it expires after such a failure (`agent/internal/subscriptionlock/lock.go:152-177`), so that such a request has settled by the time anyone else works there. A creation may take effect late: `Cloud.LateCreation`.
- Texts of errors, `LastError`, logging, progress output, dry runs and `VerifyCompleted`: no branch of the modelled code depends on them.
- Migration.Migrator.Rollback: does not promise that a legacy subscription exists when the entry shows no trace of a migration, because the source then marks it rolled back without looking.
- Refresh.Service.AccessToken: does not cover the legacy Cloud Functions, which refresh the same grant without the lease.
- SubscriptionLock.MarginIsExact: does not exclude work that runs beside a holder from later holders, because the source does not; the waiting loop of `with`, its wait limit and its timer are steps that change nothing.
- Jobs.OnceIff: is about four-minute slots; daily slots depend on a time zone and are arbitrary slot values in the other results.
- Queue.TwitchQueue.Finish: the parsing of rate-limit headers, the budget pause of `step` and its wake-up channel are inputs, and the loop that drives the queue is the set of traces.
- Reconcile.Pass: takes a listing as one atomic answer in the provider's stable order; `Api.List` models paging. `checkTwitchSecret` and `ensureTwitchApp`, which reconciles one entry of its own kind, are left out.
- Hedge.Write.Create: assumes that an attempt is answered AlreadyExists only because of another write, not because the client library sent its own request twice.
- Speak.Utterances: sample counts, the times in `playedBy`, and the audio session are not modelled; the watchdog may fire whenever its guard holds.
- Chunker.Chunk: the paragraph and sentence expressions are any functions that cut only at white space; which white space, and the abbreviations, is left open.
- Json.Reader.ReadNumber: the set of texts that `toDouble` takes is a parameter, and a double is the text it was read from; insertion order of object keys, digits outside ASCII in `\u` escapes, and the depth of the stack are not modelled.
- JsonText.ParseReads: says nothing about texts outside the grammar, of which the reader takes some, such as leading zeros and signed escapes.
- Noise.UniformIsFine: the logarithm, cosine and rounding of `nextGaussian` are not modelled.
- Flutter channels, `AudioTrack`, ONNX Runtime, system speech, OAuth pages, function proxies, embeds, catalog search, page parsing, message mapping and metrics: plumbing, or foreign calls that cannot be seen.
