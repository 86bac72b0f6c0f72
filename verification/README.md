# Verification of the Memba backend cores

This project models the stateful and arithmetic cores of the Go backend and
proves what they promise over every run. Each module is one component:

| files | component |
|---|---|
| `FreePlayTables`, `FreePlayStore`, `FreePlayProtocol`, `FreePlayInvariant`, `FreePlaySafety`, `FreePlayAllowance`, `FreePlayRetries`, `FreePlayProgress`, `FreePlayWitness` | the free-play publication protocol: many workers over one database, each of which may stop anywhere, spend money on chain at most once per run, and publish it when nothing goes wrong |
| `IndexerTables`, `Indexer`, `NftSales` | the block-tailing indexer with its raw ledger, single-block rollback and NFT aggregates |
| `MergeCeiling`, `ScoreCeiling`, `Replay`, `Streak`, `DailyBlock` | Block Party: score ceilings, replay with undo, daily streaks, the block that seeds a day |
| `AttesterTables`, `Attester` | the day-close attester against a realm that keeps one best entry per line |
| `ActivityWatch`, `LaunchpadWatch` | the activity relay with its outbox, and the solvency watcher |
| `FreePlayCost`, `RateLimit`, `FreePlayLimiter`, `Windows`, `Abi` | fee arithmetic, request limiters, ABI encoders and readers |
| `Wrappers` | `Option` and `Result` |

Run `dafny verify dfyconfig.toml`.

Conventions. A SQL transaction is one step on maps. A commit takes effect, does
not, or takes effect and reports an error. The node, the clock, the webhook and
the realm are inputs that may answer anything, unless a statement says
otherwise. A class has the fields its Go counterpart keeps; what a proof has to
remember besides is a ghost field. Text that is only compared (hashes,
addresses, identifiers) is a number. Integers are unbounded unless a type says
otherwise. Source paths below are relative to the repository root.

## What the proofs found

Some promises hold only under a condition. For each of these there is a
concrete counterexample or an if-and-only-if.

- `mergeScoreCeiling` is the exact maximum over all interleavings exactly when
  the leaves' values sum to less than 1024 (`ScoreCeiling.CeilingIsMaximum`).
  Ranked runs stay far below.
- The closed form of `TheoreticalScoreCeiling` bounds leaves of two neighbouring
  values for an even number of leaves or a single one; for every other number it
  is exceeded (`ScoreCeiling.GroupSumBound`, `ScoreCeiling.GroupSumExceeded`).
  Both ranked tile counts, 26 and 32, are even.
- With two signers on one database, a run that signer A submitted and signer B's
  worker confirmed leaves A's `pending_run_id` set forever
  (`FreePlayWitness.SecondSignerPinsFirst`, `FreePlaySafety.PinnedForever`).
- Two unsettled broadcasts of one signer need an Anchor call after its lease
  ended, which the deadline inside the lease rules out
  (`FreePlaySafety.PunctualAlone`, `FreePlaySafety.BroadcastsInTurn`), and an
  entry on chain that this database did not anchor
  (`FreePlayWitness.StrangerEntryOverlaps`, `FreePlaySafety.OneUnsettledBroadcast`).
  At any call the exact condition is that the signer is pinned to another run,
  anchored and not confirmed (`FreePlaySafety.OverlapExact`).
- The indexer stays right over a reorganization exactly when it is harmless: no
  watched event changes below the saved cursor, and no row is there yet above
  it (`IndexerTables.ReorganizedGood`). A half-applied block that is replaced before
  the retry is harmful (`IndexerTables.HarmfulReorganization`).
- A streak freeze is used at most once per ISO week of the play that uses it.
  Counted by the day it bridges, two days of one week can be bridged, exactly by
  a play of that week after its Monday and by the next Monday's play
  (`Streak.BridgedTwiceInWeek`, `Streak.TwoBridgedInOneWeek`).
- A fall of the Launchpad surplus is lost exactly by a reading that is a new low
  and whose page and row write both fail (`LaunchpadWatch.ReadingAccounts`,
  `LaunchpadWatch.LostFall`).
- `MinFeeUgnot` rounds up after a truncating division, which gives the least fee
  exactly when the amount is not negative or divides
  (`FreePlayCost.RoundedUpIsLeast`).
- A run that the realm holds exactly as sent is retired instead of attested only
  if the realm got that entry from elsewhere (`AttesterTables.LandedNotSkipped`,
  `AttesterTables.ForeignRunSkipped`).
- `readBytes` refuses what `encodeBytes` writes for more than 2^20 bytes, and
  reads back everything else (`Abi.BytesRoundTrip`).

Where comments and code disagree, the code is modelled: `StartDayCloseBatcher`
speaks of days before today, the code closes days before yesterday; the freeze
is refilled at the first play of a new week, not at its start; "two stable
readings in a row" means two readings that were judged, since a stable reading
of wrong books in between does not reset the count.

## Model

| member | source | states |
|---|---|---|
| `FreePlayStore.Store.Queue` | backend/internal/arcade/freeplay_store.go:121-191 | authorizing a run either returns its one error or consumes the quote, unused, unexpired and issued for that run and payload, and writes its outbox row; only an expired, unsent authorization is replaced; no mark of an authorized run, no pin, no other row and no status but a verified run's changes |
| `FreePlayStore.Store.Claim` | backend/internal/arcade/freeplay_store.go:216-268 | a claim takes, under a fresh token, the due row that comes first (submitted runs, then the oldest), only while the signer is free and not pinned to another run, and never an unsent row with eight failures; when some row is due and nothing is in the way it takes one |
| `FreePlayStore.Store.ReserveBroadcast` | backend/internal/arcade/freeplay_store.go:272-313 | the unknown-outcome marker is committed only by the current owner of both leases, on an empty marker, for its own unexpired quote, and only together with the signer's pin, which was free or this run's |
| `FreePlayStore.Store.CancelUnsent` | backend/internal/arcade/freeplay_store.go:316-351 | only the marker of the live invocation's first attempt is undone, with its pin; no other mark, pin or row changes |
| `FreePlayStore.CancelUndoes` | backend/internal/arcade/freeplay_store.go:272-351 | canceling after reserving a first attempt gives back exactly the tables before |
| `FreePlayStore.Store.SaveHash` | backend/internal/arcade/freeplay_store.go:354-369 | only the owner's row changes, and its mark only from ambiguous to the hash; success says that it did, and a lost lease or any other mark is the error |
| `FreePlayStore.Store.SaveAttempt` | backend/internal/arcade/freeplay_store.go:380-417 | no mark is ever erased and no pin, run or other row changes; success ends both leases, sets the next check 5 to 300 seconds ahead by the count that fits, and counts a failure exactly when nothing was sent, a poll otherwise |
| `FreePlayStore.Store.Confirm` | backend/internal/arcade/freeplay_store.go:420-452 | only the owned run is confirmed, with a valid receipt of its own entry; every mark, other run and other row stays, and no pin ends but the owner's to that run |
| `FreePlayTables.CheckDelay` | backend/internal/arcade/freeplay_store.go:372-378 | the delay before the next check lies between 5 and 300 seconds and never shrinks |
| `FreePlayTables.DelayDoubles` | backend/internal/arcade/freeplay_store.go:372-378 | it starts at 5 seconds and doubles until it reaches 300 |
| `FreePlayStore.Store.ReserveAllowance` | backend/internal/arcade/freeplay_spending.go:117-194 | one spending row per run and its amounts in the counters of the clock's day, within the limits, for a covering, unexpired quote whose row and signer the same owner holds; or an error and no change; no other table and no other day changes |
| `FreePlayInvariant.StepKeeps` | backend/internal/arcade/freeplay_publisher.go:60-178 | every step of every interleaving keeps the protocol's invariant |
| `FreePlaySafety.AnchoredAtMostOnce` | backend/internal/arcade/freeplay_publisher.go:60-178 | no run and no quote is ever passed to Anchor twice, for any number of workers, crashes, expiries and authorizations |
| `FreePlaySafety.MarkerStays` | backend/internal/arcade/freeplay_store.go:272-313 | after Anchor was called for a run its outbox hash is never empty again |
| `FreePlaySafety.AnchorAuthorized` | backend/internal/arcade/freeplay_publisher.go:106-148 | Anchor is given the quote in the run's outbox row, consumed for that run alone and never used before |
| `FreePlaySafety.ReplacedUnused` | backend/internal/arcade/freeplay_store.go:121-191 | a replaced authorization had expired, no worker holds it past its marker, and Anchor was never called for it |
| `FreePlaySafety.ReplacedFenced` | backend/internal/arcade/freeplay_store.go:272-313 | a worker whose quote was replaced can neither commit a marker nor be about to send |
| `FreePlayRetries.FailuresBounded` | backend/internal/arcade/freeplay_store.go:372-417 | in every reachable state a row has at most eight failures, and fewer once it carries a mark |
| `FreePlayRetries.RetryBudget` | backend/internal/arcade/freeplay_store.go:239-244 | over any execution one authorization records at most eight failures before it is replaced or sent |
| `FreePlayProgress.ClaimComes` | backend/internal/arcade/freeplay_store.go:216-268 | in every reachable state a free signer pinned to no other run can claim as soon as some row waits |
| `FreePlayProgress.Publishes` | backend/internal/arcade/freeplay_publisher.go:60-178 | in every reachable state a worker that claimed an unsent, covered run within the day's limits confirms it with one Anchor call if every call goes well, and its signer is free again |
| `FreePlayProgress.ConfirmsFound` | backend/internal/arcade/freeplay_publisher.go:88-100 | a worker that finds its run's entry, whoever sent it, confirms the run without another Anchor call |
| `FreePlayProgress.TriedAgain` | backend/internal/arcade/freeplay_store.go:380-417 | a recorded failure leaves the row waiting within five minutes, as long as it was sent or has tries left |
| `FreePlayProgress.Authorizes` | backend/internal/arcade/freeplay_store.go:121-191 | a fresh quote of its own queues a verified run, in every reachable state |
| `FreePlayProgress.Reauthorizes` | backend/internal/arcade/freeplay_store.go:121-191 | so it does for a queued run whose authorization ran out unsent, with its failures set back |
| `FreePlaySafety.PinExact` | backend/internal/arcade/freeplay_store.go:272-452 | a signer is pinned to a run exactly when it reserved the run's broadcast and the run is submitted or was confirmed by another signer's worker |
| `FreePlaySafety.OneSignerPin` | backend/internal/arcade/freeplay_store.go:272-452 | with one signer, the pinned run is exactly the submitted, unconfirmed one, in every reachable state |
| `FreePlaySafety.SettledBeforeNext` | backend/internal/arcade/freeplay_publisher.go:60-178 | when Anchor comes for an unconfirmed run, every other run the signer anchored is confirmed |
| `FreePlaySafety.OverlapExact` | backend/internal/arcade/freeplay_store.go:272-452 | a worker about to call Anchor overlaps with an unsettled broadcast of its signer exactly when the signer's `pending_run_id` names another run, anchored and not confirmed |
| `FreePlaySafety.PinnedAlone` | backend/internal/arcade/freeplay_publisher.go:136-148 | a worker whose signer is still pinned to its own run overlaps with nothing |
| `FreePlaySafety.PunctualAlone` | backend/internal/arcade/freeplay_publisher.go:72-75 | until its lease ends, which the 45-second deadline keeps it within, a worker about to call Anchor owns its row and its signer and overlaps with nothing, whatever the chain shows |
| `FreePlaySafety.BroadcastsInTurn` | backend/internal/arcade/freeplay_publisher.go:60-178 | in every execution whose Anchor calls come before their leases end, all broadcasts of a signer but the last are confirmed |
| `FreePlaySafety.OneUnsettledBroadcast` | backend/internal/arcade/freeplay_publisher.go:60-178 | a second sufficient condition, without deadlines: on a chain without foreign entries no Anchor of a signer falls between another run's Anchor and its confirmation |
| `FreePlaySafety.ConfirmedByReceipt` | backend/internal/arcade/freeplay_publisher.go:44-56 | a confirmed run carries a valid receipt of its own entry that agrees with the recorded hash |
| `FreePlaySafety.ConfirmedForever` | backend/internal/arcade/freeplay_store.go:420-452 | no later step changes a confirmed run or its outbox row |
| `FreePlaySafety.PinnedForever` | backend/internal/arcade/freeplay_store.go:420-452 | a signer whose run another signer's worker confirmed can never claim again |
| `FreePlayWitness.SecondSignerPinsFirst` | backend/internal/arcade/freeplay_store.go:420-452 | a reachable state with two signers in which a confirmed run still pins its signer |
| `FreePlayWitness.StrangerEntryOverlaps` | backend/internal/arcade/freeplay_publisher.go:88-100 | a reachable state in which a foreign entry, and an Anchor call after its lease ended, leave two broadcasts of one signer unsettled |
| `FreePlayAllowance.BudgetIsTally` | backend/internal/arcade/freeplay_spending.go:117-194 | a day's attempts, fee and deposit are the sums of its spending rows, within the day's limits and without overflow |
| `FreePlayAllowance.SpendingWithinAllowance` | backend/internal/arcade/freeplay_spending.go:117-194 | the limits of all quotes ever passed to Anchor are covered by distinct reservations, per day and over all days |
| `IndexerTables.ConfirmedEnd` | backend/internal/indexer/reorg.go:11-24 | the cycle's end is past the cursor as far as the confirmed tip or the cap, whichever is less, and no farther |
| `IndexerTables.BehindIsBehind` | backend/internal/indexer/tailer.go:281-316 | the loaded cursor is that of the first realm furthest behind |
| `Indexer.Tailer.SaveCursor` | backend/internal/indexer/tailer.go:320-339 | the cursor is written for every realm, or for the first few when a write fails, and the others keep theirs |
| `Indexer.Tailer.DispatchEvent` | backend/internal/indexer/dispatch.go:84-141 | the raw row comes before the sale, each only if its key is new, and every way to break off between them is reported |
| `Indexer.Tailer.ApplyBlock` | backend/internal/indexer/tailer.go:245-269 | the watched events of a block up to the first failure; where the ledger was right at the block, it gains rows of that block only, the sales table sales of it only, and on success both have all of them |
| `IndexerTables.AppliedGrows` | backend/internal/indexer/tailer.go:245-269 | any part of a block, retried or not, adds only the block's own rows and sales; without a failure it is recorded whole |
| `Indexer.Tailer.Recheck` | backend/internal/indexer/tailer.go:204-234 | a cursor block whose hash changed is rolled back and walked back by one, after which the tables are right up to there |
| `Indexer.Tailer.TailOnce` | backend/internal/indexer/tailer.go:168-276 | a cycle keeps the tables right with any failures, takes no row back while the stored hash is the chain's, and without failures takes every realm to the confirmed tip or 500 blocks past the one furthest behind, with exactly the chain's watched events |
| `IndexerTables.CycleKeeps` | backend/internal/indexer/tailer.go:168-276 | the same of what the cycle computes, for every chain, state and failure |
| `IndexerTables.CycleMovesOn` | backend/internal/indexer/tailer.go:236-276 | a cycle without failures leaves no realm below the lesser of the confirmed tip and 500 blocks past the one furthest behind |
| `IndexerTables.CatchesUp` | backend/internal/indexer/tailer.go:236-276 | after any number k of such cycles on one chain no realm is below the lesser of the tip and 500 times k blocks past the start |
| `IndexerTables.NothingUnconfirmed` | backend/internal/indexer/reorg.go:11-24 | no cycle writes a row or a cursor of a block that is not confirmed |
| `Indexer.Tailer.Rollback` | backend/internal/indexer/reorg.go:32-93 | exactly the rows at or above the height go, in the ledger and in the sales table |
| `IndexerTables.ReorganizedGood` | backend/internal/indexer/tailer.go:192-234 | a reorganization between cycles leaves the ledger right exactly when it is harmless |
| `IndexerTables.OrdinaryReorganizations` | backend/internal/indexer/tailer.go:192-234 | new blocks, and a change of the cursor block itself, are harmless |
| `IndexerTables.HarmfulReorganization` | backend/internal/indexer/tailer.go:192-234 | a failed cycle leaves a half-applied block above its cursor; once the block is replaced, its wrong row stays through any number of cycles on the new chain |
| `IndexerTables.CanonicalSales` | backend/internal/indexer/tailer.go:245-269 | with retries of half-applied blocks the sales table up to the cursor is exactly the sale events of the chain |
| `Indexer.Follow` | backend/internal/indexer/tailer.go:168-276 | a run takes every turn, a reorganization and a cycle, up to the first harmful one; then the tables are those of its cycles, the ledger up to the cursor is exactly the last chain's watched events and the sales table its sales, or the stored hash differs and the next cycle rolls back |
| `IndexerTables.FollowedIsRight` | backend/internal/indexer/tailer.go:168-276 | over any run of harmless reorganizations and cycles, with any failures, the tables stay right |
| `NftSales.Projection.SettleSale` | backend/internal/indexer/dispatch.go:361-439 | a sale is recorded once by position, with its token sold, its collection's totals and its floor; a replay changes nothing |
| `NftSales.Projection.ApplyListed` | backend/internal/indexer/dispatch.go:164-204 | a listing sets the token's price and keeps the floor the least listed price |
| `NftSales.Projection.ApplyDelisted` | backend/internal/indexer/dispatch.go:206-244 | a delisting clears the price and keeps the floor the least listed price |
| `NftSales.Projection.RecomputeFloor` | backend/internal/indexer/dispatch.go:143-155 | the floor becomes the minimum over the collection's listed tokens, or none |
| `NftSales.Projection.Rollback` | backend/internal/indexer/reorg.go:32-93 | the surviving sales are those below the height, and the recomputed totals agree with the incremental ones |
| `NftSales.Projection.Dispatch` | backend/internal/indexer/dispatch.go:84-141 | an event adds a sale exactly when it is one for its engine and is new, never if it is a malformed Sale or another kind, and changes the tokens as its kind says |
| `NftSales.OneSaleEach` | backend/internal/indexer/dispatch.go:90-118 | however engines report settlements, as purchases or accepted offers, as Sale events or as both, every settlement adds exactly one sale, at its price |
| `NftSales.Project` | backend/internal/indexer/dispatch.go:361-439 | after any events, replays and rollbacks the sales and tokens are the fold of the changes, the totals the sums and counts of the surviving sales, the floors the least listed prices |
| `MergeCeiling.MergeKeepsBest` | backend/internal/blockparty/budget.go:65-79 | whichever pair is merged first, its score is exactly what the best total loses |
| `MergeCeiling.NoScheduleScoresMore` | backend/internal/blockparty/budget.go:65-79 | no interleaving of spawns and merges, of all leaves or a prefix, scores more than the best total |
| `MergeCeiling.FinishedSchedulesScoreTheSame` | backend/internal/blockparty/budget.go:65-79 | merging is confluent: all maximal schedules score the same |
| `MergeCeiling.BestIsReached` | backend/internal/blockparty/budget.go:65-79 | some schedule reaches the best total |
| `ScoreCeiling.MergeScoreCeiling` | backend/internal/blockparty/budget.go:65-79 | the loop computes the greedy merge of the levels from 2 to 256 |
| `ScoreCeiling.CeilingIsMaximum` | backend/internal/blockparty/budget.go:65-79 | that is the maximum over all schedules exactly when the leaves sum to less than 1024 |
| `ScoreCeiling.TheoreticalScoreCeiling` | backend/internal/blockparty/budget.go:25-36 | the loop computes the sum over powers of two of full groups times the largest spawn |
| `ScoreCeiling.GroupSumIsBest` | backend/internal/blockparty/budget.go:14-36 | that sum is the exact maximum when every spawn is the largest |
| `ScoreCeiling.GroupSumBound` | backend/internal/blockparty/budget.go:14-36 | it bounds every mix of two neighbouring values if their number is even or 1 |
| `ScoreCeiling.GroupSumExceeded` | backend/internal/blockparty/budget.go:14-36 | for every odd number from 3 on some mix exceeds it |
| `ScoreCeiling.SeedScoreCeiling` | backend/internal/blockparty/budget.go:46-63 | for every generator, seed and modifier the result is the exact maximum for the drawn spawns and at most the theoretical ceiling |
| `Replay.VerifyFreePlay` | backend/internal/blockparty/freeplay.go:30-71 | a log is accepted exactly when at every moment its uncancelled moves are a legal play and the last one is over; otherwise the error names the first bad action and what is wrong with it |
| `Replay.OneFailure` | backend/internal/blockparty/freeplay.go:30-71 | at most one action of a log is the first bad one, for one reason |
| `Replay.RefusedFor` | backend/internal/blockparty/freeplay.go:44-66 | the reason is that the action is no move, or comes after the end, or draws nothing |
| `Replay.PlaysExactly` | backend/internal/blockparty/freeplay.go:44-66 | a play goes through exactly if each move is one of the four, made before the end, and draws something |
| `Replay.UndoLeavesNoTrace` | backend/internal/blockparty/freeplay.go:30-71 | an accepted log and its surviving moves alone are both accepted with the same state, for any engine |
| `Streak.Streaks.BumpStreak` | backend/internal/blockparty/store.go:227-295 | the stored row always says what the accepted plays say, the error cases change nothing |
| `Streak.NextPlay` | backend/internal/blockparty/store.go:254-278 | the rules on the stored row agree with the streak, the longest streak and the freeze read off the whole history |
| `Streak.RowTells` | backend/internal/blockparty/store.go:227-295 | after any run of plays the stored row is the streak read off the history |
| `Streak.DaysAccounted` | backend/internal/blockparty/store.go:220-226 | last day minus first day plus one is the days played plus the days bridged |
| `Streak.OneBridgePerWeek` | backend/internal/blockparty/store.go:244-250 | over any run of plays the stored streak goes on over a missed day at most once in an ISO week |
| `Streak.BridgedTwiceInWeek` | backend/internal/blockparty/store.go:244-271 | exactly when two bridged days share an ISO week |
| `Streak.TwoBridgedInOneWeek` | backend/internal/blockparty/store.go:244-271 | that it happens |
| `DailyBlock.SelectDailyBlock` | backend/internal/blockparty/blockselect.go:25-66 | for block times in any order the result is a block at or after midnight that follows an earlier one or is the first, the error cases are exact, and with every block readable there is a result exactly when the latest block is late enough |
| `DailyBlock.NothingLateBefore` | backend/internal/blockparty/blockselect.go:23-25 | with ordered block times that is the first late block |
| `Attester.Batcher.InsertRun` | backend/internal/arcade/store.go:61-75 | the first submitter of a log wins |
| `Attester.Batcher.PendingBoards` | backend/internal/arcade/store.go:82-101 | exactly the closed boards with a pending run, in order |
| `Attester.Batcher.BestRuns` | backend/internal/arcade/store.go:109-147 | at most the limit of the best unblocked runs, one per address, best first |
| `AttesterTables.BestMeans` | backend/internal/arcade/store.go:109-147 | the best run of a line scores more than every parked run there and comes first of the verified ones by score, age and hash |
| `AttesterTables.BestExists` | backend/internal/arcade/store.go:109-147 | a line with a verified run that no parked one reaches has a best run at least as good |
| `Attester.Batcher.RecordAttestFailure` | backend/internal/arcade/batcher.go:211-225 | the failure count grows before the run is parked at the cap, for every outcome of both writes |
| `AttesterTables.FailureCounted` | backend/internal/arcade/batcher.go:211-225 | a failure counts, and the eighth parks the run exactly if both writes take effect |
| `AttesterTables.VerdictMeans` | backend/internal/arcade/batcher.go:137-199 | which broadcasts are refused, attested, retired for another entry or counted as failures, from the realm's entries and the net alone |
| `Attester.Batcher.AttestRun` | backend/internal/arcade/batcher.go:126-205 | one attempt is one broadcast to the realm; it keeps the store sound for every answer and write outcome, touches one line, and drains it when all goes well; a run whose own entry the realm holds and shows is marked attested with it; its failed writes, its refusal, its receipt and how it ends are exactly those that the realm's answer and the writes call for |
| `Attester.Batcher.AttestBoard` | backend/internal/arcade/batcher.go:119-206 | only best runs of the board's lines are broadcast, once each, at most the limit, and all of them below it unless an attempt is cancelled or a write fails; what is recorded of each is what its attempt came to |
| `Attester.Batcher.RunBatchOnce` | backend/internal/arcade/batcher.go:101-209 | at most the cap of broadcasts, only best runs of closed days, none twice; below the cap all of them, if no query, attempt or write fails; refusals, receipts and failed writes are those of each run's own attempt, judged against the realm at the start; rows of open days stay |
| `Attester.Run` | backend/internal/arcade/batcher.go:39-77 | over any submissions, cycles, restarts and better entries from elsewhere every event does what its step promises, the store stays sound, and the realm receives each run at most eight times plus once per failed write about it |
| `AttesterTables.MarkWrote` | backend/internal/arcade/batcher.go:187-205 | a run whose entry the realm holds becomes attested exactly when the mark takes effect, with that entry as its receipt, and each failed write counts |
| `AttesterTables.Reported` | backend/internal/arcade/batcher.go:126-205 | the writes after a broadcast are accounted for against the realm before it: refused only if the realm said so, attested only with its own entry there, other runs and lines untouched |
| `AttesterTables.MarkKeeps` | backend/internal/arcade/batcher.go:192-205 | a run is marked with the realm's own entry for it, and only if it scores at least as high as every pending or parked run of the line |
| `AttesterTables.AttestedByReceipt` | backend/internal/arcade/batcher.go:137-199 | every attested run was the realm's entry, with the same log and score, when it was marked (`Reported` ties the receipt to the realm), and the realm holds it still or a better one |
| `AttesterTables.RetiredForReason` | backend/internal/arcade/batcher.go:163-184 | a run is skipped only because the realm refused it (`Reported` ties the refusal to its answer) or holds an entry at least as good |
| `AttesterTables.LandedNotSkipped` | backend/internal/arcade/batcher.go:162-199 | a skipped run that was not refused, and whose entry did not come from elsewhere, lost to another log's entry, at least as good |
| `AttesterTables.ForeignRunSkipped` | backend/internal/arcade/batcher.go:162-184 | with an entry from elsewhere a run is retired although the realm holds exactly its own entry |
| `AttesterTables.BroadcastsBounded` | backend/internal/arcade/batcher.go:28-32 | each run is broadcast at most eight times plus once per failed store write, where the realm counts what it receives and `RunBatchOnce` the failed writes |
| `AttesterTables.OneAttestedPerLine` | backend/internal/arcade/store.go:103-108 | one line has at most one attested run; nothing pending, parked or superseded there beats it |
| `ActivityWatch.Watcher.SaveBlock` | backend/internal/activitywatch/watcher.go:205-221 | a block's messages and the cursor are committed together, only on an empty outbox |
| `ActivityWatch.Watcher.Beat` | backend/internal/activitywatch/watcher.go:223-238 | the heartbeat that says the queue is caught up is enqueued only when it is |
| `ActivityWatch.Watcher.PostHead` | backend/internal/activitywatch/watcher.go:240-277 | one message is sent, the head, exactly if its block is still the node's, and the channel's record of it carries the answer |
| `ActivityWatch.Watcher.Drain` | backend/internal/activitywatch/watcher.go:240-277 | nothing is posted before the time to wait for, only the head, and at most the budget of posts reach the channel; the first that is not accepted is the last, a rate limit sets the time to wait for, and every message deleted was accepted by one of these; with honest answers only the budget stops it |
| `ActivityWatch.Watcher.ReadNext` | backend/internal/activitywatch/watcher.go:125-155 | a block is taken only if it continues the hash chain, every transaction has a receipt of its height that can be rendered, and the node still shows the block after the receipts were read |
| `ActivityWatch.Watcher.Cycle` | backend/internal/activitywatch/watcher.go:82-177 | a cycle, broken off at any call, keeps the relay unbroken, deletes only what the channel accepted in it, sends at most 20 posts to the channel and none after one that failed, moves on at most 50 confirmed blocks, halts if the cursor's block changed, enqueues one heartbeat if it ends well at the confirmed tip a day after the last and none otherwise, and if nothing goes wrong stops early only for the delivery budget |
| `ActivityWatch.HeartbeatWhenDue` | backend/internal/activitywatch/watcher.go:171-176 | a cycle that ends well at the confirmed tip, a day after the stored heartbeat by every reading of its clock, enqueues exactly one heartbeat after everything else and stores a reading of its clock |
| `ActivityWatch.NoHeartbeatBefore` | backend/internal/activitywatch/watcher.go:171-176 | a cycle that ends below the confirmed tip, or within a day of the stored heartbeat, enqueues none and keeps the stored time |
| `ActivityWatch.DailyAtMost` | backend/internal/activitywatch/watcher.go:171-238 | over any cycles and restarts whose clocks do not go back two heartbeats are a day apart |
| `ActivityWatch.NextHeartbeat` | backend/internal/activitywatch/watcher.go:171-238 | whatever the clocks do, a heartbeat counts its day from the time stored with the one before |
| `ActivityWatch.Live` | backend/internal/activitywatch/watcher.go:70-80 | over any cycles and restarts each cycle does what it promises from the state before it; deleted messages followed by the outbox are everything enqueued for the notice, the blocks and the heartbeats, and each deleted message was accepted in an answer to a post of its own |
| `ActivityWatch.EverythingEnqueued` | backend/internal/activitywatch/watcher.go:179-238 | what was enqueued is exactly the entries' messages in order |
| `ActivityWatch.NothingLost` | backend/internal/activitywatch/watcher.go:240-277 | nothing enqueued is lost, repeated or reordered through the outbox |
| `ActivityWatch.PostsInOrder` | backend/internal/activitywatch/watcher.go:240-277 | the posts that the channel received go through the messages one by one; none is passed over before the channel accepted it |
| `LaunchpadWatch.ReadingAccounts` | backend/internal/launchpadwatch/watcher.go:181-221 | with every fall reported by a page delivered since or pending in the row, one more reading keeps it so exactly when it does not lose a new low |
| `LaunchpadWatch.LostFall` | backend/internal/launchpadwatch/watcher.go:218-220 | a fall that no page ever tells of |
| `LaunchpadWatch.NoFallUnreported` | backend/internal/launchpadwatch/watcher.go:126-221 | over any run of checks none of which loses a new low every fall was paged since or is pending |
| `LaunchpadWatch.BaselineHolds` | backend/internal/launchpadwatch/watcher.go:193-212 | over any run of checks that leaves a fall pending the baseline does not move and the lowest value only falls |
| `LaunchpadWatch.BaselineFollows` | backend/internal/launchpadwatch/watcher.go:193-212 | over any run of checks, with no fall pending, the baseline is the surplus of the last new reading that was written |
| `LaunchpadWatch.FallNoticed` | backend/internal/launchpadwatch/watcher.go:193-217 | a new reading below that one, with nothing pending, is paged at once or pending after it, from the one surplus to the other |
| `LaunchpadWatch.ReadingTruthful` | backend/internal/launchpadwatch/watcher.go:181-221 | every delivered page tells of a reading seen against that baseline, and of one since the last page if no write failed |
| `LaunchpadWatch.PagesTruthful` | backend/internal/launchpadwatch/watcher.go:126-221 | over any run of checks every page tells of a fall that was seen, and unless a write failed of one seen since the page before |
| `LaunchpadWatch.Watcher.JudgeDeficit` | backend/internal/launchpadwatch/watcher.go:183-191 | the deficit rule is paged from the second judged reading in a row until a page is delivered, and not again before a reading that is not below; the attempts and the delivered pages are counted exactly |
| `LaunchpadWatch.Watcher.JudgeSurplus` | backend/internal/launchpadwatch/watcher.go:192-221 | the row and the history after a reading, for every outcome of page and write; `BaselineFollows` says what the row holds |
| `LaunchpadWatch.Watcher.Check` | backend/internal/launchpadwatch/watcher.go:126-161 | an unstable, stuck or foreign reading decides nothing; wrong books page the view rule; any other reading is judged; which rule is paged is exact |
| `LaunchpadWatch.Live` | backend/internal/launchpadwatch/watcher.go:101-124 | over any checks and restarts each realm's row and history are those of its own checks, and every fall of a realm is reported or pending if none of its checks loses both page and write |
| `FreePlayCost.RoundedUpIsLeast` | backend/internal/arcade/fee.go:100-110 | the rounded quotient is the least fee that pays exactly when the amount is not negative or divides |
| `FreePlayCost.PlanIsSound` | backend/internal/arcade/freeplay_cost.go:54-77 | a plan exists exactly when its exact costs fit the caps, and then its fee is the least with the margin and at least the chain's minimum |
| `FreePlayCost.PlanExists` | backend/internal/arcade/freeplay_cost.go:47-77 | sound settings, fresh prices of the target and exact costs within the caps are all that a plan takes |
| `FreePlayCost.PlanIsMonotone` | backend/internal/arcade/freeplay_cost.go:54-77 | if neither unit price rose a plan still exists and costs no more |
| `FreePlayCost.QuoteStillPasses` | backend/internal/arcade/freeplay_cost.go:111-157 | an unexpired quote for the run passes the broadcast guard on fresh prices if neither unit price rose |
| `FreePlayCost.QuoteMade` | backend/internal/arcade/freeplay_cost.go:98-134 | a run of the target is quoted at the plan's costs whenever there is a plan, the allowance is there and the quote is not late |
| `FreePlayCost.QuoteForOneRun` | backend/internal/arcade/freeplay_cost.go:111-157 | a quote passes for no run and no payload but those it was made for, and not after it expired |
| `FreePlayCost.PassedPays` | backend/internal/arcade/freeplay_cost.go:136-157 | what passes the guard is the run's own quote, unexpired at both readings of the clock, pays the chain's price now and covers the deposit, within the settings' caps |
| `FreePlayCost.AttestFeePays` | backend/internal/arcade/fee.go:126-174 | a planned attestation fee pays the price, stays under the cap, and unless explicit pays twice the price |
| `FreePlayCost.AttestFeeExists` | backend/internal/arcade/fee.go:126-174 | a fee is planned exactly when the explicit one pays the price within the cap, or else twice the least that pays is within it |
| `Windows.AdmittedInInterval` | backend/internal/ratelimit/limiter.go:138-163 | fixed windows admit at most two windows' worth in any interval of one length |
| `RateLimit.Limiter.AllowKey` | backend/internal/ratelimit/limiter.go:144-163 | the answer, the entry and the record of what was admitted, for every key and time |
| `RateLimit.FirstOnesAdmitted` | backend/internal/ratelimit/limiter.go:144-163 | of a key's requests in the window that its first one opens, exactly the first max(1, maximum) are admitted, whatever other keys and the cleaning do |
| `RateLimit.Limiter.Collect` | backend/internal/ratelimit/limiter.go:166-184 | exactly the expired entries go |
| `RateLimit.Limiter.AtMostTwice` | backend/internal/ratelimit/limiter.go:144-163 | at most twice the larger of 1 and the maximum in any interval of one window |
| `RateLimit.GcChangesNothing` | backend/internal/ratelimit/limiter.go:165-184 | cleaning up at any moments changes no answer |
| `FreePlayLimiter.Limiter.Allow` | backend/cmd/memba/arcade_freeplay_limiter.go:59-86 | the exact condition of an answer; a well-formed request is refused only when its identity had its maximum admitted in a window still open, or the table is full of active ones; an active identity is never evicted and keeps what it used; the table never exceeds its bound |
| `FreePlayLimiter.Limiter.Prune` | backend/cmd/memba/arcade_freeplay_limiter.go:52-58 | exactly the expired entries go |
| `FreePlayLimiter.Limiter.AtMostTwice` | backend/cmd/memba/arcade_freeplay_limiter.go:59-86 | at most twice the identity's maximum in any interval of one window |
| `Abi.BytesRoundTrip` | backend/internal/evmsafe/check.go:163-182 | what the encoder writes behind a 32-byte offset is read back exactly up to 2^20 bytes |
| `Abi.WordNumber` | backend/internal/evmauth/verify.go:178-182 | a 64-bit number is read back from its word |
| `Abi.EncodeBytes` | backend/internal/evmauth/verify.go:184-193 | the tail fills whole words |
| `Abi.WordAddress` | backend/internal/evmsafe/check.go:152-161 | an address word is twelve zero bytes and the address |
| `Abi.ReadHead` | backend/internal/evmsafe/check.go:164-178 | the offset is word-aligned and in bounds, offset and length at most 2^20 |
| `Abi.ReadAddresses` | backend/internal/evmsafe/check.go:184-215 | exactly as many zero-padded addresses as the length word says, in bounds, or an error exactly when one is malformed |
| `Abi.ListRoundTrip` | backend/internal/evmsafe/check.go:184-215 | a well-formed list of at most 2^20 addresses is read back entry by entry |

## Left out

- `FreePlayProtocol`: `PublishOne` is a state machine over its steps instead of a method, because calls interleave; each step's transaction is a method of `FreePlayStore.Store` proved against the same function.
- The text of `last_error`, the formats of hashes, identifiers and addresses, payload hashing and receipts' attester addresses: one checked flag or number each.
- Several chains, realms or targets in one free-play database.
- `PutVerified`, `CanQuote` and the views of the free-play store beyond what the protocol needs.
- `SeedRealmCursor` and a change of the watched realms on a live database.
- The feed tailer and its projections: the cursor, retry and rollback logic is that of the NFT tailer; its tables would add easy members.
- `nft_listings`, `nft_offers`, `nft_ownership_history`, royalties and sellers; the listing columns of `nft_tokens` are modelled but not claimed to be replay-idempotent.
- Wrap-around of the 64-bit NFT sums.
- `Indexer.Tailer.DispatchEvent`: the rows of the sales table carry the hash of their block, which `nft_sales` does not store; nothing reads it.
- `NftSales.Projection.Rollback`: does not restore token owners or listings, because the source does not.
- The Block Party engine, its board geometry and its random generator: parameters, or left out where they only lower a bound. The state hash of a verified replay.
- Challenges, scores and percentiles of Block Party: first write wins, and queries.
- Cancellation of a replay or of a block search between two steps.
- The realm of the day-close attester is its rule only: one best entry per line, a log belongs to one address. An operator's requeue of parked runs is not modelled.
- `Attester.Batcher.RunBatchOnce`: a crash counts as a failed write of the run it interrupts.
- `ActivityWatch.Watcher.ReadNext`: rendering a transaction, which splits long messages, is an arbitrary partial function.
- `LaunchpadWatch.Watcher.Check`: the rehearsal offset, the text of pages, the warnings about unreadable books and the metrics.
- Reading a realm's books until they hold still.
- `RateLimit.Limiter.AllowKey`: identity and endpoint are a pair; the source joins them with a colon, which is injective as long as no endpoint contains one. Subnet bucketing is left out.
- Locks, goroutines and timers of the limiters: calls are serialized by their mutexes.
- Addresses and ownership checks beyond the ABI words, and the other calldata encoders.
- HTTP handlers, JSON-RPC transports, webhooks, subprocesses, configuration and migrations.
