# Wallet sync, transaction storage and migrations in Dafny

This project models four parts of the tax-bro repository and proves properties of them for all inputs,
all interleavings and all runs.

**The wallet-sync pipeline** (`pkg/wallet_sync`). A producer reads a wallet's watermark, lists the newer
signatures and queues "already saved" messages, "on-chain" messages and one closing marker. A consumer
takes a bounded batch of one wallet out of the queue and commits it in separate database transactions.
`Pipeline` is the step system: one event per RPC call, query, append under the lock, walk under the lock
or commit, plus an environment that extends histories, asks for syncs at any time and stops the process
between any two steps. A failed assertion is a stop, hence a `Restart`. Two files carry the argument.
`WalletInvariant` says, wallet by wallet, what the tables and the wallet's *flow* (the batch in flight
followed by its queued messages) satisfy; `ProducerInvariant` does the same for a sync in progress.
`Safety` shows that every step keeps both, and `Theorems`, `Convergence`, `Recovery`, `Masking`,
`Repeats`, `Limits`, `Together` and `Counterexamples` draw the consequences. In this system the call of `deduplicateTimestamps` at the
end of a consumer round is assumed to return. As the code stands it stops the process instead; `Lives`
and `LivesRecovery` prove what the runs of that program, one batch to each life of the process, can still
do. Whatever holds of every run here holds of those runs too. `MsgQueue` specifies one call of `processMessages` as a function
on the queue.

**The relational encoding of transactions.** `Ledger` resolves compiled indexes to addresses, `Storage`
and `Saving` say which rows a batch becomes and exactly when the database accepts them, and `RoundTrip`
shows what the query of `transactions.Get` gives back.

**The migration command** (`cmd/migrate`). `Migrate` is the planner with its plans in closed form,
`Migrations` the command as a state machine over the schema and the recorded checkpoint.

**Positions inside a block.** `SlotGroups` is the grouping and numbering that `deduplicateTimestamps` is
meant to do for transactions of one slot.

The code that changes things in place is there in that form too: `Processing` (the queue with its
splicing walk and the update it fills), `Rows` (the nested loops of `prepareInsertableComponents` and the
id searches), `Database` (the tables as one object), `Rounds` (one round of each goroutine's loop) and
`Migrations.Command`. Each is proved against the specification functions, and a round of the consumer and
a call of the producer (`Calls`) are proved to be runs of the step system, so what holds of every run
holds of the objects.

## What the code does that its design does not say

The code is modelled as it is. Where it misses what it is evidently for, the exact condition is proved.

- A sync that finds 100 or more new signatures repeats the same page for ever and never sends its marker
  (no `Before` cursor): `Recovery.FullSyncNeverMarks`. A restarted wallet can converge if and only if
  fewer than 100 signatures are new and the unsaved ones are storable: `Limits.ConvergesIff`, with
  wallets that never converge in `Limits.LongHistoryDiverges` and `Limits.UnstorableDiverges`.
- `deduplicateTimestamps` stops the process after every committed batch: its query names `block_time`,
  which the table does not have, and it hands `Select` a non-pointer. A watermark then moves only when one
  batch holds everything new and the marker, so a wallet can converge, over any number of restarts, if and
  only if at most 40 signatures are new, at most 20 of them are saved, and the rest are storable:
  `LivesRecovery.OneBatchConvergesIff`.
- An empty marker can follow a non-empty one among a wallet's messages that are still to be applied, and
  if both are in one batch the update skips the watermark: `Counterexamples.MaskedMarkerReachable`. A sync
  makes such a pair exactly when it starts while a non-empty marker is pending although the watermark is up
  to date: `Masking.SyncMasksIff`. Without such syncs no batch ever holds one: `Masking.CleanBatches`. It
  never does harm, because the watermark is already there: `Theorems.MaskedMarkerIsStale`.
- The same on-chain signature can be queued twice, by a re-sync of a wallet before its queue is drained
  (`Counterexamples.ResyncBeforeDrainStops`, where one batch repeats it) or by two wallets that share a
  transaction (`Counterexamples.SharedSignatureStops`, where it is stored by then); the second insert stops
  the process. A read of a page makes such a repeat possible exactly when an unsaved signature of the page
  is still to be saved: `Repeats.ReadRepeatsIff`. Without such reads there is none, and a batch is saved
  exactly when its transactions are storable: `Repeats.GuardedBatches`. With one, only a stop undoes it:
  `Repeats.RepeatStep`.
- Inner instruction rows are inserted into `instruction`, which has no `ix_index` column. So as written a
  batch commits only if no instruction has inner instructions; with `inner_instruction` as the target it
  commits under the condition the schema asks for. `Saving.SaveCommitsIff` states both.
- An instruction without accounts, as compute budget instructions are, is sent with a nil slice, hence
  NULL, into `accounts_ids INTEGER[] NOT NULL`, and stops the process: `Saving.AccountlessStops`. That every
  instruction names an account is part of the condition of `Saving.SaveCommitsIff`.
- `accounts_ids` of a transaction row starts with as many zeros as there are accounts:
  `Storage.TxAccountsPadded`. The instruction rows are right.
- Instruction data is sent as hex text without `\x`, so the BYTEA column holds the ASCII bytes of the
  text, and `Get` returns `\x` and the hex of those. That is never hex text, so `GetData` rejects it, but it
  determines the data: `RoundTrip.ShownData`.
- `int16` indexes are unique up to 65536 instructions a level but ordered only up to 32768:
  `Storage.IxKeysDistinct`, `RoundTrip.Int16OrderIff`, `RoundTrip.LargeTransactionReordered`.
- `--zero` together with an upward or a partial run records an empty checkpoint for a database that is
  not empty: `Migrations.InvokeConsistentIff`.
- The up and down stems of migration 03 differ. That is harmless while it is the last migration, which is
  what `Migrate.Matching` allows and `Migrate.RepositoryMatches` checks.

## Model

| member | source | states |
|---|---|---|
| Ledger.DecompileAccounts | pkg/wallet_sync/rpc.go:18-30 | the account list is the message keys, then the writable, then the read-only loaded addresses |
| Ledger.SetFromCompiled | pkg/wallet_sync/rpc.go:92-103 | it panics exactly when an index is out of range; otherwise program and accounts are the addresses the indexes name, in order |
| Ledger.FetchTransaction | pkg/wallet_sync/rpc.go:173-208 | it succeeds exactly when every compiled index and every inner set points at something; then every field is that of the answer, the account list has its three parts in order, each instruction has all inner instructions of the last set that names it, and none when no set does |
| Ledger.DecodedAttached | pkg/wallet_sync/rpc.go:181-188 | any transaction decoded as specified has exactly those inner instructions |
| Ledger.DecodedResolved | pkg/wallet_sync/rpc.go:92-188 | every address a fetched instruction uses, inner ones included, is in the transaction's own account list |
| Processing.Update.Offer | pkg/wallet_sync/wallet_sync.go:439-465 | a message is taken exactly when it is the first or of the batch's wallet, and the update then is the batch of the messages taken so far |
| Processing.Queue.Append | pkg/wallet_sync/wallet_sync.go:48-52 | the message goes to the end; conservation and per-wallet order are kept |
| Processing.Queue.AppendMessages | pkg/wallet_sync/wallet_sync.go:54-58 | the block goes to the end in order; conservation and per-wallet order are kept |
| Processing.Queue.Walk | pkg/wallet_sync/wallet_sync.go:60-81 | splicing in place terminates and leaves the scanned prefix without the batch wallet's messages, in order, followed by the untouched suffix; the update is the projections of the removed messages in order |
| Processing.Queue.ProcessMessages | pkg/wallet_sync/wallet_sync.go:430-473 | the same for a whole call, and over all appends and calls enqueued is removed plus queued, with every wallet's messages removed in the order they came |
| MsgQueue.ProcessKeepsOrder | pkg/wallet_sync/wallet_sync.go:60-81 | for every wallet, what is removed followed by what stays is what was queued, in order |
| MsgQueue.ProcessConserves | pkg/wallet_sync/wallet_sync.go:60-81 | no message is lost or duplicated |
| MsgQueue.ProcessShortens | pkg/wallet_sync/wallet_sync.go:430-473 | a call on a non-empty queue shortens it by exactly the batch, at least one message |
| MsgQueue.BatchBounded | pkg/wallet_sync/wallet_sync.go:466-469 | a batch holds at most 21 transactions and 21 saved signatures |
| MsgQueue.WalkStops | pkg/wallet_sync/wallet_sync.go:60-81 | the walk goes on exactly as long as it has collected at most 20 saved signatures, 20 transactions and 40 associated accounts, or to the end of the queue |
| MsgQueue.DrainedEmpty | pkg/wallet_sync/wallet_sync.go:602-607 | as many calls as there are messages empty the queue |
| Safety.StepInv | pkg/wallet_sync/wallet_sync.go:565-615 | every step of producer, consumer or environment keeps the invariant |
| Safety.ReachableInv | pkg/wallet_sync/wallet_sync.go:565-615 | every reachable state satisfies it |
| Theorems.WatermarkNeverAhead | pkg/wallet_sync/wallet_sync.go:363-376 | in every reachable state a wallet whose last signature is s has s and every older signature of its history linked |
| Theorems.WatermarkInHistory | pkg/wallet_sync/wallet_sync.go:363-374 | last_signature_id always resolves, to a signature of the wallet's history; NULL means no watermark |
| Theorems.CounterCountsLinks | pkg/wallet_sync/wallet_sync.go:337-361 | in every reachable state the counter is the number of linked rows, and each row links a signature of the history |
| Theorems.RelinkingChangesNothing | pkg/wallet_sync/wallet_sync.go:337-357 | linking the same signatures a second time changes neither rows nor counter |
| Theorems.WatermarkMonotone | pkg/wallet_sync/wallet_sync.go:363-376 | over any run, stops included, the watermark never moves back in the history, which only grows |
| Theorems.MarkerApplied | pkg/wallet_sync/wallet_sync.go:363-374 | applying a marker always finds its signature row, never resets last_signature_id to NULL, and leaves the batch's last non-empty marker as the watermark |
| Theorems.MaskedMarkerIsStale | pkg/wallet_sync/wallet_sync.go:455-460 | when an empty marker masks a non-empty one in a batch, the watermark already is that marker |
| Masking.MaskedAlongIff | pkg/wallet_sync/wallet_sync.go:180-183 | a run meets a non-empty marker followed by an empty one of the same wallet exactly when it sends an empty one while a non-empty one is pending |
| Masking.CleanBatches | pkg/wallet_sync/wallet_sync.go:455-460 | if no sync of a wallet starts while a non-empty marker of it is pending although its watermark is up to date, no batch of it in the run holds an empty marker after a non-empty one |
| Masking.SyncMasksIff | pkg/wallet_sync/wallet_sync.go:90-183 | and that guard is exact: a sync can leave an empty marker after a non-empty one, before the next sync of the wallet, if and only if it starts in a state the guard rules out |
| Theorems.PendingMarkers | pkg/wallet_sync/wallet_sync.go:90-183 | queued markers of a wallet are in history order and not older than the watermark; an empty one follows only markers already reached |
| Theorems.RunFifo | pkg/wallet_sync/wallet_sync.go:48-81 | over any run without a stop, for every wallet, pending then sent is committed then pending, message by message |
| Convergence.ReachableConv | pkg/wallet_sync/wallet_sync.go:83-184 | a finished sync has everything it saw linked or queued, and nothing beyond it |
| Convergence.SettledWalletConverged | pkg/wallet_sync/wallet_sync.go:112-183 | once a synced wallet has nothing in flight, exactly the history its sync saw is linked, the counter is its size and the watermark its newest signature, whatever stops came before |
| Convergence.SyncSeesHistory | pkg/wallet_sync/wallet_sync.go:83-184 | a sync that sends its marker has seen at least the whole history there was when it started, whatever happened meanwhile |
| Recovery.RecoveryConverges | pkg/wallet_sync/wallet_sync.go:565-615 | from any reachable state after a stop, with fewer than 100 new signatures, the unsaved ones storable, there is a run without a stop, one in which `deduplicateTimestamps` returns, that links the whole history, with counter and watermark to match |
| Recovery.FullSyncNeverMarks | pkg/wallet_sync/wallet_sync.go:95-178 | with 100 or more new signatures at the start, no run sends the marker before a restart |
| Limits.OnlySyncableConverges | pkg/wallet_sync/wallet_sync.go:95-178 | no run from a restart, with stops or without, converges a wallet with 100 or more new signatures or with an unsaved one that is not storable |
| Limits.ConvergesIff | pkg/wallet_sync/wallet_sync.go:565-615 | in a program whose `deduplicateTimestamps` returns, from any reachable restart, some run without a stop converges the wallet if and only if fewer than 100 signatures are new and the unsaved ones are storable; allowing stops does not help |
| Together.ConvergeTogetherIff | pkg/wallet_sync/wallet_sync.go:565-615 | in that program, some run without a stop leaves all wallets of a set converged together if and only if each of them meets the condition |
| Limits.LongHistoryDiverges | pkg/wallet_sync/wallet_sync.go:85-89 | a fresh database with 100 plain transactions, which no run ever converges |
| Limits.ShortHistoryConverges | pkg/wallet_sync/wallet_sync.go:85-112 | a fresh database with 99 plain transactions, which some run without a stop converges |
| Limits.UnstorableDiverges | pkg/wallet_sync/wallet_sync.go:302-320 | the same with one transaction that has an inner instruction, or an instruction without accounts |
| Lives.OnlyLightConverges | pkg/wallet_sync/wallet_sync.go:602-609 | with one batch to a life, no number of lives converges a wallet with more than 40 new signatures or more than 20 of them saved |
| LivesRecovery.OneBatchConvergesIff | pkg/wallet_sync/wallet_sync.go:602-609 | with one batch to a life, some run from a restart converges the wallet if and only if at most 40 signatures are new, at most 20 of them saved, and the rest storable |
| Counterexamples.MaskedMarkerReachable | pkg/wallet_sync/wallet_sync.go:455-460 | a reachable state in which an empty marker has overwritten a non-empty one in a batch |
| Counterexamples.ResyncBeforeDrainStops | pkg/wallet_sync/wallet_sync.go:148-172 | a reachable state in which the batch holds the same signature twice and cannot be saved |
| Counterexamples.SharedSignatureStops | pkg/wallet_sync/wallet_sync.go:148-172 | a reachable state in which the batch of one wallet holds a storable transaction whose signature another wallet has stored, and cannot be saved |
| Repeats.RepeatStep | pkg/wallet_sync/wallet_sync.go:148-172 | a step makes a signature be saved twice exactly when the loop over the page queues one that is stored or still to be saved, and no step but a stop undoes that |
| Repeats.RunRepeatsIff | pkg/wallet_sync/wallet_sync.go:148-172 | over any run without a stop there is a repeat at the end exactly when the loop has queued such a signature |
| Repeats.GuardedBatches | pkg/wallet_sync/wallet_sync.go:123-172 | if every page is read when no unsaved signature of it is still to be saved, nothing is ever to be saved twice and a batch is saved exactly when its transactions are storable |
| Repeats.ReadRepeatsIff | pkg/wallet_sync/wallet_sync.go:123-172 | and that guard is exact: from a page about to be read, a repeat can come about before the next request if and only if an unsaved signature of the page is still to be saved, for whichever wallet |
| Rounds.ConsumerRound | pkg/wallet_sync/wallet_sync.go:602-607 | one round leaves the rest of the queue, goes through exactly when the batch can be saved, and is a run of the step system's events from any state with those tables and that queue |
| Rounds.ConsumerRuns | pkg/wallet_sync/wallet_sync.go:602-607 | taking, saving, linking and marking a batch are legal steps that compose to the committed tables |
| Rounds.Contains | pkg/wallet_sync/db.go:196-203 | true exactly when some saved row has the signature |
| Rounds.SelectSaved | pkg/wallet_sync/db.go:280-281 | the rows of exactly the saved signatures of the page, each once, in some order |
| Rounds.FetchPage | pkg/wallet_sync/wallet_sync.go:112-177 | a page is the last one exactly when it has fewer than 100 signatures; it appends its saved rows as a block, then one message for every unsaved signature, in page order |
| Rounds.PageRuns | pkg/wallet_sync/wallet_sync.go:123-177 | that is a run of the step system's producer events, for any page, query order and parser results |
| Rounds.PageMessages | pkg/wallet_sync/wallet_sync.go:126-177 | message by message: the id of each saved signature, then the transaction of each unsaved one in page order, each with what was parsed for its own signature |
| Pipeline.PageIs | pkg/wallet_sync/wallet_sync.go:85-106 | a page holds the newest 100 of what is newer than `Until`, or all of it, newest first |
| Rounds.FetchAndParse | pkg/wallet_sync/wallet_sync.go:83-184 | the marker is sent exactly when some answer has fewer than 100 signatures; it comes last and names the first signature of the first answer, "" when that is empty; before it comes one block for each non-empty answer |
| Calls.CallRuns | pkg/wallet_sync/wallet_sync.go:83-184 | a finished call is a run of the step system: for any growing histories its requests meet, some legal run from the first request to the marker leads to the very queue the method leaves |
| Calls.FullRun | pkg/wallet_sync/wallet_sync.go:95-178 | and so is the part of a call before its first short answer |
| Rows.GetId | pkg/wallet_sync/db.go:145-152 | the id of the first matching row; an error exactly when there is none |
| Rows.LookUp | pkg/wallet_sync/db.go:85-92 | on a list of a table the search inverts the table |
| Rows.PrepareForInsert | pkg/wallet_sync/rpc.go:64-78 | the row of an instruction, its account list NULL when it has none, or an error exactly when one of its addresses has no id |
| Rows.PrepareInsertableComponents | pkg/wallet_sync/wallet_sync.go:200-263 | the nested loops give exactly the specified rows in order, and stop exactly when some signature or address has no id |
| Storage.TxAccountsPadded | pkg/wallet_sync/wallet_sync.go:212-217 | the stored account list of a transaction is the intended one only when empty; the intended one is its second half |
| Storage.InsertIff | db_migrations/02_txs.up.sql:8-20 | an insert under a unique key succeeds exactly when its keys are new and distinct, and then adds exactly its rows |
| Storage.InsertIxsIff | db_migrations/02_txs.up.sql:39-70 | for instruction rows it also takes that no account list is NULL, and none ever gets in |
| Storage.IxKeysDistinct | pkg/wallet_sync/wallet_sync.go:235-241 | instruction keys of a transaction are distinct exactly up to 65536 instructions |
| Storage.InnerKeysDistinct | pkg/wallet_sync/wallet_sync.go:250-257 | inner keys are distinct exactly up to 65536 inner instructions each |
| Saving.ComponentKeysDistinct | db_migrations/02_txs.up.sql:39-70 | over a whole batch the primary keys are distinct exactly when every level fits the cast |
| Saving.InnerRefersToIx | db_migrations/02_txs.up.sql:55-62 | every inner row refers to an instruction row of the same output |
| Saving.LookupsSucceedIff | pkg/wallet_sync/wallet_sync.go:207-260 | no id lookup fails exactly when the batch uses only addresses of its account lists |
| Saving.ResolvedBatch | pkg/wallet_sync/wallet_sync.go:270-290 | which holds of every batch of fetched transactions |
| Saving.SaveCommitsIff | pkg/wallet_sync/wallet_sync.go:265-325 | the batch commits exactly when its signatures are new and distinct, its addresses resolve, its levels fit, every instruction names an account and, as written, it has no inner instructions |
| Saving.CanSaveExact | pkg/wallet_sync/wallet_sync.go:265-325 | the guard of the step system's save is that condition |
| Saving.AccountlessStops | pkg/wallet_sync/rpc.go:64-78 | a batch with an instruction that names no account never commits, whatever the tables |
| RoundTrip.DedupIdentity | pkg/wallet_sync/db.go:205-224 | dropping repeats changes a list exactly when it has some |
| RoundTrip.AccountsRoundTrip | pkg/wallet_sync/db.go:205-224 | the account query for stored ids answers with each account once, at its first occurrence, and with nothing else |
| RoundTrip.RebuiltAddresses | pkg/wallet_sync/db.go:205-224 | the addresses read back are the saved ones without repeats, so equal exactly when there were none, and `ord` is the position of each, counted from 1 |
| RoundTrip.StoredRoundTrip | pkg/wallet_sync/db.go:242-274 | for stored rows with at most 32768 instructions a level, an answer of the query is correct if and only if it is the instruction tree: order, programs, data as the column shows it, nesting |
| RoundTrip.SaveStores | pkg/wallet_sync/wallet_sync.go:265-325 | a committed save stores exactly each transaction's rows under its new id |
| RoundTrip.SavedRows | pkg/wallet_sync/wallet_sync.go:207-260 | column by column: the transaction row holds each field of its transaction and its account ids after as many zeros; each instruction row, inner ones included, holds the ids of its program and of all its accounts, repeats included, and its data |
| RoundTrip.SaveThenGet | pkg/wallet_sync/db.go:237-301 | saving and then reading a signature gives back its transaction, data as the column shows it, and only that |
| RoundTrip.ShownData | pkg/wallet_sync/rpc.go:76 | what is shown is `\x` and hex that reads back as the text sent, and is never hex text itself |
| RoundTrip.SaveKeepsOthers | pkg/wallet_sync/wallet_sync.go:265-325 | what `Get` answers for signatures stored before does not change |
| RoundTrip.SaveKeepsSchema | db_migrations/02_txs.up.sql:8-70 | after a committed save primary keys are one-to-one, foreign keys point at rows and no account list is NULL |
| RoundTrip.Int16OrderIff | pkg/wallet_sync/wallet_sync.go:237 | the cast keeps index order exactly up to 32768 |
| RoundTrip.LargeTransactionReordered | pkg/wallet_sync/db.go:271-272 | beyond that the first instruction read back is number 32768 |
| Database.Store.SaveSignatures | pkg/wallet_sync/db.go:70-83 | every value gets a fresh id, or the statement fails exactly on a repeated or known value and changes nothing |
| Database.Store.SelectAddresses | pkg/wallet_sync/db.go:112-119 | the rows of exactly the wanted addresses that exist |
| Database.Store.SaveAddresses | pkg/wallet_sync/db.go:102-143 | get-or-create: known addresses keep their id, missing ones get one each, the table stays one-to-one, the statements cannot fail, and the returned rows list the table on exactly the wanted set, in any map order |
| Database.Store.SaveTransactions | pkg/wallet_sync/wallet_sync.go:265-325 | it commits exactly under the stated condition, then the tables are what the batch specification says and the new ids are appended to the update; otherwise everything is as before |
| Database.Store.InsertComponents | pkg/wallet_sync/wallet_sync.go:292-320 | the three inserts succeed together or leave the tables alone |
| Database.Store.UpdateUser | pkg/wallet_sync/wallet_sync.go:327-376 | links and counter, then the watermark; an id linked already, or twice in the batch, is counted once or not at all |
| Database.Store.LastSignature | pkg/wallet_sync/db.go:38-61 | the outer join gives the watermark, or none for NULL |
| Migrate.PrepareMigrations | cmd/migrate/main.go:55-105 | the copied, reversed and resliced list and the new checkpoint are those of the plan function, for any list and flags |
| Migrate.NotExecuted | cmd/migrate/main.go:64-78 | the files left after the checkpoint search |
| Migrate.PlanUp | cmd/migrate/main.go:64-105 | an up plan from the k-th checkpoint is the next files in order, as many as asked for, and records the last one's stem |
| Migrate.PlanDown | cmd/migrate/main.go:64-105 | a down plan is the executed files from the checkpoint back, newest first, and records the stem before them |
| Migrate.UpStepsCompose | cmd/migrate/main.go:84-87 | a plan of a steps and then one of b is the plan of a + b |
| Migrate.DownStepsCompose | cmd/migrate/main.go:84-98 | the same downwards while something is left to undo |
| Migrate.UpThenDownPlans | cmd/migrate/main.go:55-105 | an up plan and the down plan of as many files visit the same migrations reversed and restore the checkpoint |
| Migrate.FilePrefix | cmd/migrate/main.go:69-71 | a prefix search by a stem sees the stem only, never the extension |
| Migrate.StemOf | cmd/migrate/main.go:103-104 | the part before the first dot of a file name is its stem |
| Migrate.RepositoryMatches | db_migrations/03_user_tsx.down.sql:1 | the repository's own file lists meet the stated precondition although the last stems differ |
| Migrate.RepositoryFiles | cmd/migrate/main.go:38-40 | stems and extensions give the names of the files in the directory |
| Migrations.Command.ExecuteMigrations | cmd/migrate/main.go:107-151 | all files and the checkpoint, or nothing |
| Migrations.Command.Execute | cmd/migrate/main.go:153-222 | one invocation is one step of the state machine, failed ones included |
| Migrate.ExecUndo | cmd/migrate/main.go:121-133 | when each down script inverts its up script, the reversed down files undo a run of up files |
| Migrations.UpOutcome | cmd/migrate/main.go:187-216 | going up executes the next migrations, all or none, and when it does so |
| Migrations.DownOutcome | cmd/migrate/main.go:187-216 | going down always goes through and ends at an earlier prefix |
| Migrations.LatestAndZero | cmd/migrate/main.go:158-192 | --latest alone executes everything left or nothing, --zero alone undoes everything, no flag does nothing |
| Migrations.InvokeConsistentIff | cmd/migrate/main.go:84-90 | an invocation leaves executed set, schema and checkpoint consistent if and only if it does not commit under --zero without undoing everything |
| Migrations.RunsConsistent | cmd/migrate/main.go:153-222 | after any sequence of invocations that use --zero alone, failed and interrupted ones included, the executed migrations are the prefix the checkpoint names and the schema is the fold of its up scripts |
| Migrations.UpThenDown | cmd/migrate/main.go:55-151 | an up run and the down run of as many files give back the very database |
| Migrations.DownThenUp | cmd/migrate/main.go:55-151 | and so do a down run and the up run of as many files, which cannot fail |
| Migrations.StepsAdd | cmd/migrate/main.go:55-151 | a steps and then b steps are a + b steps |
| SlotGroups.GroupBySlot | pkg/wallet_sync/wallet_sync.go:507-528 | the groups cut the slot-sorted rows into runs with strictly increasing slots, each row once and in order |
| SlotGroups.GroupingUnique | pkg/wallet_sync/wallet_sync.go:507-528 | there is only one such grouping |
| SlotGroups.AssignIndexes | pkg/wallet_sync/wallet_sync.go:534-551 | every row gets the first index of its signature in its block; it fails exactly when a signature is not in its block |
| SlotGroups.PositionsDistinct | pkg/wallet_sync/wallet_sync.go:541-549 | (slot, block index) orders the rows strictly exactly when the rows are distinct |

## Left out

- Rounds.FetchAndParse: the answers of the RPC are a parameter and the tables do not change during the call; interleaving with the consumer is the step system's part.
- Rounds.SelectSaved: only the signatures and ids of the answer, which is all the queue uses; the whole answer of `Get` is the relation `RoundTrip.IsTx`.
- Database.Store.UpdateUser: without the associated-account commit (`pkg/wallet_sync/wallet_sync.go:378-427`), whose SQL is not valid and which comes after the watermark; associated accounts count only towards the size of a batch.
- Database.Store.LastSignature: one column of `load`; which request comes first is left to the environment.
- SlotGroups.GroupBySlot: the grouping as meant; the loop as written reads `slots[-1]` on its first row.
- Limits.ConvergesIff: the sufficient half is about a program in which `deduplicateTimestamps` returns, like Recovery.RecoveryConverges; the necessary half is about every run.
- Recovery.RecoveryConverges: about a program in which `deduplicateTimestamps` returns after `Mark`, as the step system assumes; the program in which it stops is `LivesRecovery.OneBatchConvergesIff`.
- Migrate.PrepareMigrations: `math.Min` on float64 is modelled on integers, the same up to 2^53 files.
- HTTP handlers, OAuth, templates, `cmd/app` and `cmd/init_solana`: input, output and user interface.
- RPC transport, base58, transaction decoding, JSON and SQL text: `getSignaturesForAddress` is "the newest 100 of the signatures after Until" on a history that only grows, and each query is a relation on tables.
- `callRpcWithRetries`, tickers and contexts: scheduling is a free choice between steps, and a failed call is a stop.
- `sync_wallet_request` and `updateStatus`: a sync of any wallet may start whenever the producer is idle, which allows more runs than the request table does.
- `instructionsparser.Parse`: any list of associated accounts.
- `parseLogMessage`, and the hex encoding of instruction data before it is saved: logs and data are texts.
- The limit of 65535 bind parameters a statement and the lengths of VARCHAR columns, which signatures, addresses and batches of real transactions stay below.
- Creation of wallets: a run starts with some set of wallets, nothing linked, and keeps it; two wallets may share any part of their histories.
- int32 overflow of ids and counters, and gaps in serial sequences beyond "new ids are fresh".
- That every down script inverts its up script is an assumption of the migration theorems (`Migrate.Undoes`); the SQL of the scripts is not modelled.
