# Retracer: a verified model

Retracer follows an Arxium node's chain over HTTP, writes every block into a versioned store, un-indexes
forks, and serves the result to readers, event streams and webhooks. This project models that pipeline and
the consumers that must stay consistent with it, and proves what each of them promises - for every input,
every run and every interleaving, not for samples.

- **Store** (`Wire`, `Tables`, `Storage`, `Store`, `Landing`, `Replay`, `Redelivery`, `Identities`, `AsOf`).
  A table is a map keyed by its primary key. Tables whose key holds the height (`Versioned`) and tables whose
  key does not (`Keyed`: actions, role rows, token events, asset rows) are told apart, because first-wins
  inserts and rollbacks treat them differently. The writer is the class `Postgres`; its methods run statement
  by statement and are proved to compute the functions the theorems are about. A transaction is one step.
- **Indexing loop** (`TipRules`, `Rows`, `Indexer`, `Safety`, `Attached`). `Step` is the meaning of one arrival committed
  on its own; the class `IndexChain` is the batching loop that refines it.
- **Source and indexer together** (`Source`, `Pipeline`, `Convergence`, `Restart`), against any node.
- **Readers** (`Order`, `Paging`, `AccountHistory`, `Holders`, `RangeRead`, `Broadcast`).
- **Concurrent consumers** (`Sse`, `Webhooks`, `Dispatch`, `Sessions`, `Subscriptions`, `Exact`, `Rearm`, `Drain`): state
  machines over all interleavings. `Joint` runs the loop and the dispatcher on one database; `Skips` holds concrete runs.
- **Smaller cores** (`Reindex`, `RateLimit`, `Uptime`, `Csv`). `Heights` holds facts on finite sets.

Hashes, payloads and records are text that nothing looks inside. What the index reads out of a payload - the
extractor's (address, role) pairs, the asset references, the token event, the registration that names a
created token - is a record of uninterpreted functions, `Storage.Projections`, over which every theorem is
quantified.

## Where the code and its comments part

The model follows the code. Each of these has a member that states it.

- A fork is refused by finality and by depth alike whenever finality is reported
  (crates/retracer-core/src/tip.rs:109-125), though README.md:118 calls the depth a fallback used only without
  finality: `TipRules.ForkIsObeyed`.
- The `Gap` arm only warns and the block is indexed. `Pipeline.StaysLinked` gives the hypothesis under which no
  gap occurs, and each part of it is needed: `Pipeline.QueuedBehindForkBreaksChain` (a block queued behind an
  obeyed fork), `Pipeline.FetchedBehindForkBreaksChain` (a page that was being fetched behind one) and
  `Pipeline.RefusalBreaksChain` (any refused fork, nothing queued included) show that the chain is then broken.
- A failed flush of a full batch, or before a fork, is ignored. `Indexer.IndexChain.IndexInbox` returns whether
  every flush committed and promises the one-at-a-time outcome exactly then; that finalized blocks stay it
  promises in either case.
- `disputed` is not taken back by a rollback: `Replay.RollbackUndoesInsert` says exactly when the undo is
  complete, `Replay.DisputeSurvivesRollback` shows one where it is not.
- Every write is called idempotent (crates/storage/src/lib.rs:906-908), but a redelivered block can flag a height
  it disputes that was not stored the first time: `Redelivery.RedeliveryIsNoop` says which,
  `Redelivery.RedeliveryChangesNothing` exactly when none, `Redelivery.RedeliveryCanFlag` shows one.
- A fork goes back one height even where that height is not stored. The loop then has a cursor and no tip, accepts
  the next block whatever it is, and may commit it at or below the cursor, which stays (`Attached.ForkOverHole`).
  Nothing else brings a commit there: `Attached.StepAttached` and `Attached.RunAttached` are exact, and on a chain
  kept linked it does not happen (`Attached.CalmRunsCommitAbove`).
- Such a commit can fill a height below a hook's cursor, and is then never delivered, finality or not:
  `Skips.CommitUnderCursor`. What was posted stays stored all the same (`Dispatch.PostedStays`), and everything is
  delivered when no obeyed fork goes over a hole (`Joint.DeliveredByLoop`), or when no commit writes a height the
  hook should have had (`Sessions.DeliveredUnderFinality`).
- The dispatcher pages from its own copy of a hook's cursor. Without finality that is harmless as long as, while a
  hook is worked on, no rollback goes below that copy and no block of the page in flight is put back under its own
  hash (`Sessions.DeliveredUndisturbed`). `Sessions.ReplacementsSkipped` and `Skips.SkipHappens` show the first is
  needed, `Skips.ReindexedUnderfoot` the second. `Exact.ExactDelivery` says, over all runs, exactly when nothing is
  skipped.
- A registration renews the cursor of a hook that is being delivered to, and the delivery in flight overwrites it:
  `Rearm.ReplayLost` says exactly when the replay asked for is lost.
- A stream whose replay read fails is said to end; only the replay ends and the live tail follows:
  `Sse.FailedReadSkips`.
- A registration reads the tip and writes the cursor in two statements: `Webhooks.SplitRegistration` says after
  which events in between that is safe.
- An action whose identity was taken is not stored, but its roles are indexed, so reindexing need not restore
  what ingestion writes: `Reindex.ReindexIsIngest` and `Reindex.ReindexFromEmpty` say exactly when it does,
  `Reindex.SwallowedRoles` shows a block where it does not.
- A holder request without a cursor asks for addresses past the empty text, so a holder with the empty address is
  never listed: `Holders.ListedHolders`.
- The audit export writes an absent optional field and an empty one alike: `Csv.TransferExportsDiffer`.
- A minute admits at most twice the per-window maximum less one, and that is reached; only a window of 2^32
  requests, which wraps the counter, can exceed it: `RateLimit.AtMostTwicePerMinute`, `RateLimit.BoundIsMet`,
  `RateLimit.WrapExceedsBound`.

## Model

| member | source | states |
|---|---|---|
| `Wire.PositionsNameActions` | crates/storage/src/lib.rs:836-853 | Actions without an identity of their own get distinct keys across the whole chain: equal `height:index` keys mean equal height and index. |
| `Wire.KeyOfAction` | crates/storage/src/lib.rs:836-853 | An action with an identity is stored under it; one without under a text that reads as its height, a colon and its place in the block, in decimal. |
| `TipRules.SpellingDoesNotMatter` | crates/retracer-core/src/tip.rs:56-64 | Case and one `0x` or `0X` prefix never make two spellings of a hash disagree. |
| `TipRules.OnlySpellingIsForgiven` | crates/retracer-core/src/tip.rs:56-64 | Unprefixed hashes match if and only if they are equally long and at each place hold the same character or the same letter A to Z in two cases. |
| `TipRules.OnePrefixIsDropped` | crates/retracer-core/src/tip.rs:56-64 | One `0x` or `0X` at the front of either hash is not compared, and no second one is dropped. |
| `Store.Build` | crates/storage/src/lib.rs:819-871 | The one-pass column vectors stay aligned and unnest to exactly the block's action, sender and role rows in order; it fails exactly when a position does not fit the column. |
| `Store.Postgres.InsertHistoryInTx` | crates/storage/src/lib.rs:930-1068 | The history statements in their order, with the triggers they fire, leave the history rows `InsertHistory` describes, or fail on a taken hash or too many actions. |
| `Store.Postgres.InsertBlockInTx` | crates/storage/src/lib.rs:930-1085 | One block in a transaction: history, effects, disputes and the guarded cursor advance, or the error. |
| `Store.Postgres.InsertBlocks` | crates/storage/src/lib.rs:913-928 | A transaction commits exactly when every block is accepted in turn, and then holds all of them with the cursor; otherwise the database is unchanged. |
| `Store.Postgres.RollbackTo` | crates/storage/src/lib.rs:718-794 | The deletes in their order, the cascade, the hook rewind and the cursor write amount to `Rollback`; the count returned is the number of blocks removed. |
| `Store.FailedPrefix` | crates/storage/src/lib.rs:913-928 | A transaction fails as soon as one of its blocks does, whatever follows. |
| `Landing.StateLands` | crates/storage/src/lib.rs:1094-1385 | After a block at a new height every one of the twelve state tables holds exactly the old rows and, at that height, the keys its effects list with the first value listed for each: an attestor registered in the block the record of its first registration, one only deregistered a removal; sets, evidence, registrations and dropped actions as listed. Told from the two states and the effects. |
| `Landing.EffectsLand` | crates/storage/src/lib.rs:1094-1385 | A block inserted at a new height leaves that state, and flags exactly the heights its effects dispute that are stored, beside those flagged before. |
| `Landing.HistoryLands` | crates/storage/src/lib.rs:930-1068 | A block at a new height leaves its header, its first-wins action, sender and role rows, a token event for exactly the new Token actions whose key is free, and an asset row per asset a newly stored action mentions - and adds and changes no other row of these tables. |
| `Landing.CreationsLand` | migrations/0012_token_creation_and_paging.sql:4-34 | A block's registrations give exactly the matching Token actions whose key is free their create event, told from all of them, and touch nothing else; without a registration nothing changes. |
| `Landing.RegistrationWins` | crates/storage/src/lib.rs:1334-1362 | An attestor registered and removed in one block stays registered: registrations are inserted first and first wins. |
| `Landing.HashesStayUnique` | crates/storage/src/lib.rs:930-973 | After any transactions and rollbacks a hash names at most one stored height. |
| `Storage.CascadeIsKeep` | migrations/0011_asset_actions.sql:4-14 | The foreign-key cascade removes exactly the asset rows a delete by height would. |
| `Storage.InsertIndexKeep` | crates/storage/src/lib.rs:718-746 | Rolling back below a block removes every trace of it from all tables, triggers' rows included, even where its keys were taken. |
| `Storage.InsertOnlyAdds` | crates/storage/src/lib.rs:930-1385 | In all eighteen tables an insertion changes no row that is there and adds rows at the block's height only. |
| `Replay.RollbackUndoesInsert` | crates/storage/src/lib.rs:718-794 | Rollback undoes an insertion - rows, cursor and hooks - if and only if the block flagged no surviving, not yet flagged block as disputed. |
| `Replay.DisputeSurvivesRollback` | crates/storage/src/lib.rs:1279-1289 | A block that disputes an older one and is rolled back leaves the flag behind. |
| `Replay.ReplayKeep` | crates/storage/src/lib.rs:718-746 | Rolling a replay back to H is replaying the blocks up to H. |
| `Replay.CanonicalForm` | crates/storage/src/lib.rs:718-794 | After any mix of transactions above the cursor and rollbacks, every table equals inserting the surviving blocks alone into an empty index, and so does the cursor when rollbacks go to stored heights or -1. |
| `Replay.RollbackCursor` | crates/storage/src/lib.rs:770-790 | The cursor after a rollback is the replay's cursor if and only if the target is stored or below genesis. |
| `Redelivery.RedeliveryIsNoop` | crates/storage/src/lib.rs:902-928 | Redelivering stored blocks - any of them, in any order and number - commits and changes no row, not the cursor and no hook, but for the disputed flag: exactly the stored heights those blocks dispute are flagged as well. |
| `Redelivery.RedeliveryChangesNothing` | crates/storage/src/lib.rs:1279-1289 | So it changes nothing at all if and only if every stored height they dispute is flagged already. |
| `Redelivery.RedeliveryCanFlag` | crates/storage/src/lib.rs:1279-1289 | A block that disputes the height after it flags that height when it is delivered again. |
| `Identities.ReplayIsOwn` | migrations/0001_init.sql:69-79 | In any replay no two actions share a (height, index) position; with identities used once every index row sits at its action's height. |
| `AsOf.AsOfIsReplay` | crates/storage/src/lib.rs:1783-1861 | With unique keys per block in the effects, account, holding, stake, holder and attestor reads at H equal applying the effects of the surviving blocks up to H in order - attestors from the two lists of registrations and removals, repeated or not; zero balances and removals drop out only after the newest row is picked. |
| `AsOf.AsOfIsSettled` | crates/storage/src/lib.rs:1783-1959 | Reads at H are unchanged by any insertion above H and any rollback to H or higher, whatever keys repeat. |
| `AsOf.SameHolders` | crates/storage/src/lib.rs:1900-1959 | The holders at a height, with balance, state and jurisdiction filter, are those the reference state gives. |
| `AsOf.HoldersAre` | crates/storage/src/lib.rs:1900-1944 | Who holds an asset at a height: exactly those whose newest balance row up to it is positive and, where a jurisdiction is wanted, whose newest account row reads as it - with that balance and its height, the newest compliance state and that jurisdiction. |
| `Holders.HoldersReadAll` | crates/storage/src/lib.rs:1939-1945 | Following `after` at one height, while blocks are appended above it and rollbacks stay at or above it, reads the first requests * n holders of the list, ascending, each once. |
| `Holders.ListedHolders` | crates/storage/src/lib.rs:1939-1944 | The list names a holder with a row if and only if the newest balance row at that height is positive, the row is that of the newest balance, state and account rows, the jurisdiction wanted matches, and the address is not the empty text. |
| `AsOf.AgreeingCurrent` | crates/storage/src/lib.rs:2350-2372 | `DISTINCT ON` newest-row picking returns exactly the current value of every key. |
| `Indexer.StepsAppend` | crates/retracer-core/src/lib.rs:866-1022 | Handling arrivals one at a time composes: a run of two parts is the second from where the first ended. |
| `Indexer.IndexChain.constructor` | crates/retracer-core/src/lib.rs:848-864 | The loop starts with the cursor's block as its tip, no episode, an empty batch. |
| `Indexer.IndexChain.FlushBatch` | crates/retracer-core/src/lib.rs:1055-1098 | A flush commits or drops the whole batch, broadcasts its rows after the commit, changes nothing the loop stands for, and never removes or changes a stored header. |
| `Indexer.IndexChain.Push` | crates/retracer-core/src/lib.rs:1001-1019 | Accepting a block into the batch is accepting it into the database; the batch is flushed by the push that makes it two hundred and by no other. |
| `Indexer.IndexChain.Rewind` | crates/retracer-core/src/lib.rs:907-948 | Obeying a fork rolls back, takes the tip from the database, opens or keeps the episode, asks the source for the next height, and leaves the headers up to its target. |
| `Indexer.IndexChain.IndexInbox` | crates/retracer-core/src/lib.rs:866-1035 | For every inbox, every flush commits exactly when one-at-a-time indexing succeeds, and then tables, tip, episode, broadcasts and rewinds are those of one-at-a-time indexing. Flushes failing or not, a block stored at or below a height certified with every arrival is never removed or changed. |
| `Indexer.IndexChain.Run` | crates/retracer-core/src/lib.rs:866-1046 | Both over any split of the arrivals into inboxes. |
| `Safety.FinalizedIsForever` | crates/retracer-core/src/tip.rs:103-116 | Over every run of committed arrivals, gaps and refused forks included, with non-decreasing finality: the block stored at a height finalized by then is never removed or changed. Failing flushes are covered by `Indexer.IndexChain.IndexInbox` and `Run`. |
| `Safety.EpisodeIsBounded` | crates/retracer-core/src/tip.rs:103-125 | Until the next accepted block the n-th rollback has depth n, at most the finality depth of them happen, and the rows are exactly the original rows that many blocks lower. |
| `Safety.KeepKeep` | crates/storage/src/lib.rs:718-746 | Rolling back twice is rolling back to the lower height. |
| `Source.RunOnIsConsecutive` | crates/ingestion/src/rpc.rs:250-275 | Whatever page the node returns, what is sent runs on height by height and stops at the first height that does not. |
| `Source.RpcSource.DrainRewinds` | crates/ingestion/src/rpc.rs:174-180 | Of all waiting rewinds the last decides the next height. |
| `Source.RpcSource.PageEnd` | crates/ingestion/src/rpc.rs:216-216 | A request covers at least one height, at most a page, and never passes the node's tip. |
| `Source.ByHeight` | crates/ingestion/src/rpc.rs:233-249 | Collecting a page of effects by height keeps, for each height in the list and no other, the record listed last. |
| `Source.EffectsAreLast` | crates/ingestion/src/rpc.rs:233-249 | A height has effects exactly when some record is listed for it, and they are those of the last one. |
| `Source.RpcSource.SendPage` | crates/ingestion/src/rpc.rs:228-275 | Exactly the run-on prefix of the page is sent, each block with the effects listed last for its height; the cursor ends after it; it succeeds exactly when the whole page ran on. |
| `Source.SentAre` | crates/ingestion/src/rpc.rs:250-275 | Each block goes out as the node sent it but for its effects: those listed last for its height, or its own if none is listed. |
| `Pipeline.StaysLinked` | crates/retracer-core/src/lib.rs:876-1008 | For any node: while flushes commit, no fork is refused, nothing is queued behind an obeyed fork and a page being fetched behind it brings nothing, no block arrives as a gap and the stored rows stay one parent-linked chain ending at the tip. |
| `Pipeline.MoveKeeps` | crates/ingestion/src/rpc.rs:174-276 | Every move of source or indexer keeps the chain linked and the queue in step with the tip or the last rewind. |
| `Pipeline.FailedPageIsRetried` | crates/ingestion/src/rpc.rs:174-276 | A failed page and the drain after it leave the pair as it was, but for a rewind that came meanwhile, which is then obeyed. |
| `Pipeline.QueuedBehindForkBreaksChain` | crates/retracer-core/src/lib.rs:895-906 | In every state with a block queued behind an obeyed fork whose parent is stored, that block then arrives as a gap and indexing it leaves a hole. |
| `Pipeline.QueuedBehindForkRestartsChain` | crates/retracer-core/src/tip.rs:82-86 | Where that parent is not stored, nothing is left, the queued block is accepted whatever its parent, and the chain starts over above the height the source was asked for. |
| `Pipeline.FetchedBehindForkBreaksChain` | crates/ingestion/src/rpc.rs:174-276 | Whenever a rewind waits and the page asked for before it brings any block, its first block arrives as a gap and indexing it leaves a hole. |
| `Pipeline.RefusalBreaksChain` | crates/retracer-core/src/lib.rs:949-999 | After any refused fork, with anything or nothing queued and whatever the source does, the next block to arrive is a gap and indexing it leaves a hole. |
| `Convergence.ServedCommits` | crates/storage/src/lib.rs:913-928 | A parent-linked chain with distinct hashes always commits. |
| `Convergence.ConvergeStep` | crates/retracer-core/src/lib.rs:907-947 | Each move keeps the state converging and every move but a failed fetch strictly lowers (rollbacks left, blocks to index, blocks to fetch). |
| `Convergence.Converges` | crates/retracer-core/src/lib.rs:907-947 | Against a longer fixed chain parting from ours at a reachable ancestor, no commit fails, and when nothing is in flight the loop has rolled back exactly to the ancestor and stores exactly the served chain. |
| `Convergence.ForkResolves` | crates/ingestion/src/rpc.rs:174-275 | Such a run exists from every such state: fetching block by block the fork is resolved. |
| `Convergence.ForkHappens` | crates/retracer-core/src/lib.rs:907-947 | The setting is met by a concrete fork, so neither theorem speaks of nothing. |
| `Restart.EventKeeps` | crates/retracer-core/src/lib.rs:686-691 | Fetching, taking, flushing and crashing at any point keep stored, pending and queued blocks consecutive pieces of the served chain. |
| `Restart.CrashesChangeNothing` | crates/storage/src/lib.rs:902-928 | Any number of crashes at any points, each followed by a resume after the cursor, leave at a given cursor the same rows as an uninterrupted run. |
| `Order.Sort` | crates/storage/src/lib.rs:1714-1717 | `ORDER BY` lists each row of the set once, ascending. |
| `Order.TextLessIs` | crates/storage/src/lib.rs:1714-1717 | Texts are ordered as in a dictionary: at the first place they differ the smaller character or the end comes first. |
| `Order.SortedUnique` | crates/storage/src/lib.rs:1714-1717 | A sorted list is determined by its rows. |
| `Order.InFirst` | crates/storage/src/lib.rs:1714-1717 | A row is in the first n exactly when fewer than n rows come before it. |
| `Paging.MergedPage` | crates/storage/src/lib.rs:1645-1728 | Cutting each branch to n, uniting, sorting and cutting to n gives the first n of the whole deduplicated union, for any number of branches. |
| `Paging.PastIsRest` | crates/storage/src/lib.rs:1988-2015 | What lies past a row's cursor is the rest of the sorted list. |
| `Paging.FollowReadsAll` | crates/storage/src/lib.rs:1988-2015 | Following a keyset cursor while rows are added in front reads exactly the rows of the first request, in order, each once. |
| `Paging.ReachIsProduct` | crates/storage/src/lib.rs:1988-2015 | n requests of a page each reach n pages' worth of rows, or all of them. |
| `AccountHistory.AccountPageIsMerged` | crates/storage/src/lib.rs:1666-1728 | With identities used once, the account page built from per-role limits is the first page of everything the account has in any of the roles. |
| `AccountHistory.AccountPageIs` | crates/storage/src/lib.rs:1645-1728 | With identities used once, the page is the first `limit` actions, newest first, before the cursor in which the account has any role asked for - as the sender, if none is - told from the tables. |
| `AccountHistory.AccountCursor` | crates/storage/src/lib.rs:1676-1706 | The (height, index) cursor cuts exactly where the whole key would. |
| `AccountHistory.AccountReadsAll` | crates/storage/src/lib.rs:1645-1728 | Following the account cursor while the indexer appends blocks reads every action there at the first request, newest first, each once. |
| `AccountHistory.TokenCursor` | crates/storage/src/lib.rs:1990-2015 | The (height descending, action ascending) predicate is the keyset cursor. |
| `AccountHistory.TokenRowsAre` | crates/storage/src/lib.rs:1990-2015 | A page of a token draws on exactly the events of that token that are older than the cursor or of its height and later by action. |
| `AccountHistory.TokenReadsAll` | crates/storage/src/lib.rs:1990-2015 | The same enumeration for a token's events, with no hypothesis on identities. |
| `RangeRead.Group` | crates/storage/src/lib.rs:2528-2540 | Grouping into a hash map keeps each height's rows, in their order. |
| `RangeRead.GroupIsPoint` | crates/storage/src/lib.rs:2512-2540 | A height's share of the page-wide queries is what a point read queries for it. |
| `RangeRead.GetBlocksInRange` | crates/storage/src/lib.rs:2488-2562 | Three queries plus grouping return exactly the point reads of the first `limit` stored heights of the range, ascending. |
| `RangeRead.ReplayCoversRange` | crates/rest-service/src/sse.rs:247-275 | Paging by the last height plus one covers the range, whatever the page size: every stored block once, ascending. |
| `RangeRead.PageFollows` | crates/storage/src/lib.rs:2485-2487 | A page leaves out no stored height between its rows, nor before its first. |
| `Broadcast.BroadcastAgrees` | crates/storage/src/lib.rs:1387-1444 | For a block at a height not stored before, the broadcast row has the stored row's header always; the same actions in the same order if and only if the block's identities are new and distinct; the same dropped rows up to order if and only if no signature repeats. The broadcast row is never flagged as disputed; the stored one is when the database flags the height. |
| `Rows.UndecodedCounts` | crates/storage/src/lib.rs:1387-1444 | A row's undecoded count is the number of its actions of kind `unknown`. |
| `Broadcast.ReplayReadable` | migrations/0001_init.sql:69-79 | Every index the writer builds keeps each action in a stored block and each dropped action under its own signature, as the reads rely on. |
| `Broadcast.RollbackReads` | crates/storage/src/lib.rs:1528-1558 | After a rollback every height at or below the target reads as before and none above it reads at all. |
| `Broadcast.InsertReads` | crates/storage/src/lib.rs:1528-1558 | A block committed at any height changes the content of no other height. |
| `Sse.HandoffIsSeamless` | crates/rest-service/src/sse.rs:219-297 | Over every interleaving of batch commits, broadcasts and the client's steps, lagging included, whatever identities and signatures the blocks repeat: the emitted heights are exactly from, from + 1, ..., each with the stored header, and a client that caught up has them all. A row's actions are the stored ones when its block brought identities of its own, its dropped rows when it drops no signature twice. |
| `Sse.StreamCatchesUp` | crates/rest-service/src/sse.rs:219-297 | From any index and a resume it reaches, subscribing, reading pages, broadcasts and receptions alone bring the client live with everything read, and it was then sent each height from `from` to the last indexed one, once, in order. |
| `Sse.LaggedEnds` | crates/rest-service/src/sse.rs:277-288 | A live client that lost messages is sent nothing more, whatever happens, and its next reception ends the stream. |
| `Sse.CommitBatch` | crates/retracer-core/src/lib.rs:1072-1085 | Every committed batch of the next heights extends the contiguous index, leaves older rows as read, and its broadcast rows have the stored headers - and the stored actions and dropped rows where identities and signatures are not repeated. |
| `Sse.ContiguousPage` | crates/rest-service/src/sse.rs:247-275 | A replay page of a contiguous index starts at the height asked for and has no hole. |
| `Sse.FailedReadSkips` | crates/rest-service/src/sse.rs:265-268 | After a failed replay read everything emitted lies above the replay's ceiling: the heights not yet replayed are never sent. The stream goes on: while no message is lost the client stays live and is owed no less than before. |
| `Webhooks.CursorsStayIndexed` | crates/storage/src/lib.rs:753-768 | In every interleaving of atomic registrations, deliveries, transactions and rollbacks, with or without finality, no hook's cursor exceeds the indexed height. |
| `Subscriptions.CursorsSafe` | crates/rest-service/src/webhooks.rs:296-336 | Every run of the dispatcher, with commits and rollbacks at any point of it, is such an interleaving, so it takes no cursor above the indexed height either. |
| `Webhooks.RegistrationIs` | crates/rest-service/src/webhooks.rs:111-127 | A registration from a height is refused exactly when that height is past the next one, and else sets the hook's cursor to the height below it; without a height the cursor is the indexed height. Nothing else changes. |
| `Subscriptions.SessionStarts` | crates/rest-service/src/webhooks.rs:296-336 | From a cursor the dispatcher reads nothing exactly when no stored, indexed and final height lies above it; else a page of at most five hundred that begins with the first stored height above it and leaves none out if it is shorter. |
| `Subscriptions.FirstDelivered` | crates/rest-service/src/webhooks.rs:111-127 | After a registration from f the first page begins at the first stored height at or above f, if one may be delivered; after one without a height nothing is owed. |
| `Subscriptions.DeliveredFrom` | crates/rest-service/src/webhooks.rs:111-127 | After a registration from f, over every undisturbed run, everything stored from f to the hook's cursor was acknowledged. |
| `Subscriptions.CatchesUp` | crates/rest-service/src/webhooks.rs:296-336 | From any idle state one session of the dispatcher's own steps, with a receiver that accepts, leaves no height that may be delivered above the hook's cursor. |
| `Subscriptions.NothingIsStuck` | crates/rest-service/src/webhooks.rs:296-336 | From any state, mid-delivery included: after a crash, and once the node finalizes what is indexed, one session leaves the hook's cursor at or above every stored height. |
| `Webhooks.SplitRegistration` | crates/rest-service/src/webhooks.rs:111-127 | A registration whose tip read and write are apart is safe if and only if every rollback below the chosen cursor in between was followed by a commit or rollback that reached that cursor again. |
| `Webhooks.RollbackBeatsRegistration` | crates/rest-service/src/webhooks.rs:111-127 | Whatever came before it, a rollback below the chosen cursor that nothing makes up for leaves a hook above the indexed height. |
| `Webhooks.StaleDeliveryIsIgnored` | crates/storage/src/lib.rs:2680-2697 | Once a block is gone, until the same height and hash is written again, finishing its delivery moves no cursor. |
| `Dispatch.DeliveriesAreWanted` | crates/rest-service/src/webhooks.rs:212-243 | A block owes a hook exactly the actions whose sender is its address, or of which the extractor finds that address in some role - any, if it has no address - and the dropped actions that address sent, each if the hook asked for that event. |
| `Subscriptions.WantedIsIndexed` | crates/rest-service/src/sse.rs:198-214 | For a block of new identities that is exactly the actions with a sender row or a role row of the address once the block is stored: live and historical filters agree. |
| `Dispatch.DeliveriesInOrder` | crates/rest-service/src/webhooks.rs:212-243 | What a stored block owes is posted in the stream's order: actions by position, then dropped actions by signature. |
| `Dispatch.MovePosted` | crates/rest-service/src/webhooks.rs:296-434 | Every step of dispatcher, finality, rollback or commit, at whatever height, keeps every posted block stored and final. |
| `Dispatch.PostedStays` | crates/rest-service/src/webhooks.rs:330-336 | Under finality no block anything of which was posted is ever un-indexed, whatever commits and at whatever heights. |
| `Sessions.DeliveredUnderFinality` | crates/rest-service/src/webhooks.rs:296-336 | Under finality, in every run whose commits write no height above the registration that is at or below the hook's cursor, the dispatcher's copy of it, or a block of the page in flight that is stored: everything stored between registration and the hook's cursor was acknowledged for that very block, and what is posted is what its stored block owes, after all owed before it in height and stream order. |
| `Sessions.MoveSound` | crates/rest-service/src/webhooks.rs:296-434 | Every step keeps what the hook's cursor and the dispatcher remember sound, unless it is a commit of that kind or a rollback below the dispatcher's cursor while the hook is worked on. |
| `Sessions.DeliveredUndisturbed` | crates/rest-service/src/webhooks.rs:296-336 | The same with or without finality, in every run with no such commit and no rollback below the dispatcher's cursor while the hook is worked on. |
| `Sessions.ReplacementsSkipped` | crates/rest-service/src/webhooks.rs:304-308 | Without finality, for every listed cursor c, rollback below it and replacement blocks up to c + 1, the dispatcher can end on c + 1, and then all up to there was acknowledged if and only if every replacement up to c owed nothing not acknowledged for it before. |
| `Skips.SkipHappens` | crates/rest-service/src/webhooks.rs:304-308 | A concrete run from a registration: a block is delivered, rolled back and replaced, and the cursor passes the replacement unacknowledged. |
| `Skips.ReindexedUnderfoot` | crates/rest-service/src/webhooks.rs:321-326 | A concrete run of loop and dispatcher, with no commit below a cursor and no rollback below the dispatcher's: a fork over a hole, then the page's block back under its own hash above a new one, which the cursor passes unacknowledged. |
| `Skips.CommitUnderCursor` | crates/retracer-core/src/lib.rs:929-938 | A concrete run of loop and dispatcher, with finality and without: a fork over a hole, then a block committed below the hook's cursor, and never delivered. |
| `Exact.MoveExact` | crates/rest-service/src/webhooks.rs:316-326 | From a state with everything up to the hook's cursor acknowledged, a move leaves it so if and only if it is not a record that passes over something unacknowledged, nor a commit that adds something unacknowledged at or below the cursor. |
| `Exact.ExactDelivery` | crates/rest-service/src/webhooks.rs:296-434 | Over every run, finality or not, commits and rollbacks anywhere: everything up to the hook's cursor is acknowledged all along if and only if every move is clean in that sense. |
| `Exact.HoleFilled` | crates/storage/src/lib.rs:1072-1082 | A block with identities of its own that fills a height not stored below the hook's cursor leaves everything acknowledged if and only if the hook wants nothing of it. |
| `Attached.StepAttached` | crates/retracer-core/src/lib.rs:929-948 | While the tip is the cursor's block the loop commits above the cursor only, and stays so exactly unless it forks back to a height that is not stored. |
| `Attached.RunAttached` | crates/retracer-core/src/lib.rs:866-1022 | Over a run: after every arrival if and only if no obeyed fork goes to such a height. |
| `Attached.LoopIsCanonical` | crates/retracer-core/src/lib.rs:866-1022 | From an empty index, over every run of arrivals in which no obeyed fork goes over a hole: tables and cursor are those of inserting, into an empty index, just the blocks the run keeps - accepted blocks put on top, obeyed forks taking off those above their target. |
| `Attached.ForkOverHole` | crates/storage/src/lib.rs:780-790 | After such a fork every next block is accepted and becomes the tip; one at or below the cursor is stored there, and exactly then the cursor does not move. |
| `Attached.CalmRunsCommitAbove` | crates/retracer-core/src/lib.rs:876-1008 | In every calm run of source and indexer from a linked chain every commit is above the cursor. |
| `Joint.EventIsMove` | crates/retracer-core/src/lib.rs:876-1008 | Every arrival at the loop is, for the dispatcher, one commit of one block, one rollback no lower than the finalized height, or nothing. |
| `Joint.DeliveredByLoop` | crates/retracer-core/src/lib.rs:866-1022 | Loop and dispatcher on one database, with finality: over every interleaving in which no obeyed fork goes to a height that is not stored, everything up to the hook's cursor was acknowledged, in turn, and no posted block is un-indexed. |
| `Joint.LoopUndisturbed` | crates/retracer-core/src/lib.rs:866-1022 | And the dispatcher does not disturb the loop: after any interleaving tables, cursor, flags, tip and episode are those of the loop on the arrivals alone. |
| `Joint.FinalityOnlyRises` | crates/retracer-core/src/lib.rs:876-906 | The finality the loop is told with its arrivals never decreases over any run of the two, as the finality theorem asks. |
| `Rearm.ReplayLost` | crates/storage/src/lib.rs:2680-2697 | A registration in mid-delivery: the block in flight, unless gone, overwrites the new cursor, and something above it is left undelivered since if and only if more is owed there than by that very block posted from its start. |
| `Drain.Drainer.DrainPage` | crates/rest-service/src/webhooks.rs:296-327 | The page loop, whatever the receiver answers, is a run of the state machine, and asks for another page exactly when more is owed. |
| `Reindex.PageSplits` | crates/storage/src/lib.rs:565-581 | A page and what remains past its last position split the actions: none is skipped or read twice. |
| `Reindex.Columns` | crates/storage/src/lib.rs:583-592 | A page's columns unnest to the roles of its actions, in page order. |
| `Reindex.ReindexActionAddresses` | crates/storage/src/lib.rs:549-617 | The loop terminates with the old rows untouched and exactly the missing implied rows added, and returns how many were missing. |
| `Reindex.ReplayIsReindexable` | crates/storage/src/lib.rs:562-581 | Every index built by the writer meets what the loop relies on: positions are unique and no height is negative. |
| `Reindex.ReindexedIs` | crates/storage/src/lib.rs:549-556 | A row is in the resulting table exactly when it was there or the extractor implies it for a stored action; a new one sits at that action's height. |
| `Reindex.ReindexTwice` | crates/storage/src/lib.rs:549-556 | A second run finds nothing missing and changes nothing. |
| `Reindex.ReindexIsIngest` | crates/storage/src/lib.rs:549-617 | Whatever the old schema was, reindexing leaves exactly what ingesting under the new one would have if and only if every role found before is found first in the same block now, and every role found only now is held by the first action bearing its identity. |
| `Reindex.ReindexFromEmpty` | crates/storage/src/lib.rs:549-617 | From an emptied table, if and only if every role found is held by the first action bearing its identity. |
| `Reindex.DistinctReindexIsIngest` | crates/storage/src/lib.rs:835-866 | When every action has an identity of its own, if and only if the new schema loses no role the old one found. |
| `Reindex.UnsignedAreDistinct` | crates/storage/src/lib.rs:836-853 | Chains of unsigned actions meet that hypothesis. |
| `Reindex.SwallowedRoles` | crates/storage/src/lib.rs:835-866 | A concrete block of two actions with one identity: ingestion indexes the role of the one it does not store, and reindexing does not restore it. |
| `RateLimit.RateLimiter.Allow` | crates/retracer-core/src/auth.rs:46-61 | One request sweeps a map of more than ten thousand addresses, leaving of the other addresses exactly those whose window is at most a minute old, opens or continues the address's window, counts it modulo 2^32, and is allowed while the count is within the maximum. |
| `RateLimit.SweepChangesNothing` | crates/retracer-core/src/auth.rs:46-61 | Over every history in time order each decision is the one a map that never forgets would give. |
| `RateLimit.AtMostTwicePerMinute` | crates/retracer-core/src/auth.rs:46-61 | Any closed sixty seconds admit at most twice the maximum less one from one address, unless a window's counter wrapped. |
| `RateLimit.ZeroAdmitsNone` | crates/retracer-core/src/auth.rs:46-61 | A maximum of zero admits nothing, short of a wrap. |
| `RateLimit.BoundIsMet` | crates/retracer-core/src/auth.rs:46-61 | The bound is reached for every maximum. |
| `RateLimit.WrapExceedsBound` | crates/retracer-core/src/auth.rs:46-61 | And a wrap does exceed it: a burst of 2^32 and the maximum requests at one instant admits twice the maximum plus one. |
| `Uptime.Count` | crates/rest-service/src/lib.rs:1611-1656 | One pass leaves in the three maps exactly the turns owed, proposed and backed up by each address, and in the owed and backup maps no other address. |
| `Uptime.ComputeUptime` | crates/rest-service/src/lib.rs:1607-1678 | One entry, in address order, for each address owed a turn or seen as a backup, with exactly its counts; its uptime is the share of turns owed that it proposed, and absent when none is owed. |
| `Uptime.ReportAddsUp` | crates/rest-service/src/lib.rs:1607-1678 | Turns owed total the rows with a non-empty fetched set, backups total those with a later round, and proposed plus missed is owed for each address. |
| `Uptime.TurnsAreFair` | crates/rest-service/src/lib.rs:1599-1605 | Over L heights with one set of n distinct validators each is owed L / n turns rounded down or up, whatever the rounds. |
| `Csv.Export` | crates/rest-service/src/lib.rs:1310-1336 | The export loop appends the header and one quoted line a record. |
| `Csv.RoundTrip` | crates/rest-service/src/lib.rs:1268-1270 | Reading the data rows back by the quoting rules of RFC 4180, section 2, returns the original cells, for all texts. |
| `Csv.TransferColumns` | crates/rest-service/src/lib.rs:1310-1336 | Read back, a transfer export holds one row a record with each field in its column, numbers in decimal and absent fields empty. |
| `Csv.HolderColumns` | crates/rest-service/src/lib.rs:1371-1392 | The same for a holder export. |
| `Csv.TransferExportsDiffer` | crates/rest-service/src/lib.rs:1310-1336 | Two transfer lists export alike if and only if they differ at most in absent against empty optional fields. |
| `Csv.HolderExportsDiffer` | crates/rest-service/src/lib.rs:1371-1392 | The same for holder lists. |

## Left out

- Parallel columns of the state tables: `BlockWrites` is modelled column by column; the effects' columns are lists of (key, value).
- Replay.CanonicalForm: speaks of rows and cursor; the disputed flags and the hooks' cursors are not part of it, since a rollback does not restore the former and caps the latter. Its transactions are above the cursor, as the loop's are until a fork goes over a hole (`Attached.RunAttached`).
- Failing casts of amounts, nonces and heights: heights are unbounded integers, not 64-bit, and every text of an amount is taken to be numeric.
- Several events in one Token payload: a Token action names at most one token event, and which of several matching registrations names a created token is left to the uninterpreted projection.
- The database's text collation: rows are ordered by `Order.TextLess`, character by character.
- Three queries of one range read, and the queries of one point read, see one database state; under finality the heights read cannot change between them.
- Channel capacities and back-pressure: a queue holds any number of blocks; batches of two hundred are modelled, inboxes of any size.
- Pipeline.StaysLinked: assumes flushes commit, no refused fork and nothing arriving from behind an obeyed one; the three lemmas beside it show it fails otherwise.
- Sse.HandoffIsSeamless: rollbacks during a stream, a resume beyond the next height or below the first indexed one, and an index with holes are not covered, and replay reads succeed; `Sse.FailedReadSkips` covers the failing read.
- Sessions.DeliveredUnderFinality: one hook, registered once, with the rollback and the finality it is checked against taken as one step; a registration that renews the hook is `Rearm.ReplayLost`, for the block in flight only.
- Joint.DeliveredByLoop: the loop commits block by block, which `Indexer.IndexChain.IndexInbox` refines to batches, and a commit that fails is taken to change nothing.
- Backoff timing, failure recording and disabling of hooks, HMAC signatures and the HTTP requests themselves.
- Blocks committed or rolled back while a reindex runs: the loop works on a fixed table of actions.
- Time in the rate limiter is a number of nanoseconds that never decreases; the mutex makes each request one step.
- Warnings logged for unexpected proposers, and fetching validator sets from the node.
- The JSON form of the audit exports and their SHA-256 digest.
- Settlement states, statistics, daily token rollups, readiness, the network's confirmation of disputes, and other single-branch reads.
- SQL text, query plans, index definitions, HTTP, configuration and command-line parsing.
