# Verified model of the market-data pipeline

The system polls CoinGecko, turns each quote into an event of a per-coin aggregate, appends it to
PostgreSQL together with an outbox row, relays the outbox to Redis, projects the event log into
read tables, and serves those tables through a cache and a GraphQL dataloader.  This project models
its protocols in Dafny and proves what they guarantee over every run, every interleaving and every
failure they allow for.  `dafny verify dfyconfig.toml` checks all of it.

| file | what it holds |
|---|---|
| `Ordering.dfy` | sorting, LIMIT and WHERE on sequences, as the SQL queries use them |
| `Market.dfy` | events, JSON codec, the market aggregate (values and the mutable class) |
| `EventStore.dfy` | the writers' step machine: arrive or hydrate, begin, lock, check, insert, commit, fail; its invariant |
| `StoreTheorems.dfy`, `Appends.dfy` | what every run of well-formed writers guarantees; the steps of an undisturbed append |
| `Unchecked.dfy` | what remains when callers promise nothing |
| `StoreCode.dfy` | `AppendEvents`, `LoadEvents`, `GetLatestEvent`, `ProcessMarketData` as code under interference |
| `Outbox.dfy`, `Overtaking.dfy`, `OutboxCode.dfy` | publishers added to the writers; when publications go out of order; `publishBatch` as code |
| `Projector.dfy`, `ProjectorCode.dfy` | the crashing projector with its checkpoint; `Start` and `Project` as code |
| `Pipeline.dfy`, `CatchUp.dfy`, `LateCommits.dfy` | writers and projector together: checkpoint safety, convergence, end to end; the end of the log is always within reach; exactly which late commits can be lost |
| `Counterexamples.dfy` | concrete runs that show which hypotheses are needed |
| `ReadModel.dfy` | the price-history queries |
| `CacheKeys.dfy`, `KeyCollisions.dfy` | cache and flight keys; which lists share one |
| `HistoryCache.dfy`, `HistoryTheorems.dfy`, `CachedRepository.dfy` | the cached history queries under a changing table: machine, guarantees, code |
| `HistorySteps.dfy`, `HistoryStale.dfy`, `HistoryRuns.dfy` | what their calls and flights can be led to do; exactly when an answer can be older than the table, or for other coins |
| `SummaryCache.dfy`, `SummaryCode.dfy` | how stale a cached summary can be; `GetMarketSummary` as code |
| `Grouping.dfy`, `Dataloader.dfy`, `DataloaderTheorems.dfy`, `DataloaderCode.dfy` | the dataloader's grouping, protocol over the cached queries, guarantees and code |
| `Breaker.dfy` | the circuit breaker and the retry loop |

A protocol is a state, a predicate saying which steps are enabled, and a function giving the next
state; a run is any sequence of enabled steps.  Histories (what was published, inserted, served,
sent) are ordinary parts of the state.  The code modules contain the source's methods with their
loops; each of their statements is one step of the machine, and wherever the source can be
interrupted they call `Interfere`, which lets everyone else follow a given schedule of steps.  Its
contract is discharged by a lemma about all schedules (`OthersKeep`), and `RunsAreSchedules` shows
that every run of the others is one.  An `Env` parameter holds these schedules and the outcomes of
external calls.  A method's contract says both what a result means, whatever the others do, and when
it comes about: which failed statement or lasting lock is behind an error, and what the result is
when nothing fails and nobody interferes.

## Assumptions

- PostgreSQL: READ COMMITTED isolation; a failed statement or commit has no effect; advisory and row
  locks are released after the commit is visible; sequences are not transactional; a
  `SKIP LOCKED` select is one atomic step.
- Redis: a failed `Publish` may or may not have been delivered; a failed `Get` is a miss; a failed
  `Set` or `Del` may or may not have taken effect.
- The advisory lock key is an arbitrary function of the aggregate id, so colliding hashes are covered.
- JSON decoding inverts encoding on documents the payload type accepts; other documents
  (`Unreadable`) fail to decode.
- One projector process at a time; the clock does not run backwards.
- Results about convergence take as hypothesis that every commit lies above the projector's horizon:
  the last id of the batch in hand inside the record loop, otherwise `lastID` (`TimelyRun`).
  Visibility in id order implies it (`IdOrderedIsTimely`), and one sequential aggregator gives that
  (`SequentialIsIdOrdered`).  `LostIffBelowHorizon` shows that the hypothesis is exact.
- Equal `recorded_at` values are ordered by row id, the same way in both history queries.  The cached
  queries assume that the batch query's outer rows keep window order; `BatchRefinesSingle` says that
  this is exactly what is needed.
- Prices are exact reals, instants integers, ids and versions unbounded.

## Where the code does less than its documentation says

- `README.md` line 60 of the repository promises no duplicate publications.  A transaction that
  publishes and then fails to delete or commit publishes again (`AbortRepublishes`), and so does a
  publication that was delivered but reported as failed (`LostReplyRepublishes`).
  `ExactlyOnceIff` and `OutboxConservation` give the exact count.
- `AppendEvents` does not check the versions or aggregate ids of its events, and skips the version
  check for a negative expected version.  The guarantees about versions are therefore for callers
  that number their events (`WellFormed`), which `PrepareWellFormed` proves of the processor.  For
  all callers, `ViolationExactly` says when an insert is refused and `CommitStaysGaplessIff` when a
  commit leaves a gap; `UncheckedAppendHitsUnique` and `UncheckedAppendLeavesGap` are runs of each.
- A commit that becomes visible at or below the projector's horizon can be lost
  (`LateCommitIsSkipped`); `LostIffBelowHorizon` is the exact condition.
- An old summary can be served after its key was deleted, to a caller who arrived after the delete
  and joined an open flight, although nobody had an unset read (`JoinerGetsDeletedRow`); the exact
  condition is `StaleOnlyInTheAir`.  A cached summary can be served more than ten seconds after its
  Set (`ServedHalfAMinuteLate`); the exact condition is `ServedLateIffHeldAcross`.
- History entries are never deleted, so a cached history can be older than the table
  (`AnswerFromOlderTable`).  In every reachable state `StaleIffHeld` says exactly when such an answer
  can still be served before the table changes again, and `ServedHistoryIsRecent` bounds its age.
- The batch flight key is ambiguous for ids that contain spaces (`SpacesCollide`,
  `SpacesMisanswer`).  `MisansweredIff` says exactly which lists can be answered for one another, and
  `MisanswerableIff` which requests can be answered for other coins at all: ids are free text, so
  every list of two or more, and a single id that falls at a space into two in sorted order.
- A half-open probe answered with a status below 500 other than 200 and 429 is never recorded and
  blocks the breaker (`NotFoundBlocks`); `RecoversIffNotBlocked` and `BlockedIffProbeLost` say
  exactly when.

## Model

| member | source | states |
|---|---|---|
| Market.ReplayVersion | internal/domain/market/aggregate.go:63-83 | folding any events keeps the aggregate's identity and ends at the last event's version |
| Market.HydrationExact | internal/domain/market/aggregate.go:63-83 | applying only the last event equals the whole fold if and only if that event replaces the state or the earlier ones left the six fields alone |
| Market.MarketAggregate.Apply | internal/domain/market/aggregate.go:63-83 | new version and all six fields in place, field by field from the payload, the event raised only when new, nothing else changed |
| Market.MarketAggregate.HandleCommand | internal/domain/market/aggregate.go:31-60 | succeeds exactly for fetch commands with an id and a non-negative price; the event is one version ahead, made at this instant, carries every field of the command and decodes to itself; the aggregate is untouched |
| Market.MarketAggregate.RaiseEvent | internal/domain/aggregate.go:44-46 | appends to the uncommitted list and changes nothing else |
| Market.MarketAggregate.ClearUncommittedEvents | internal/domain/aggregate.go:40-42 | empties the uncommitted list and changes nothing else |
| EventStore.KeysAreCounts | internal/eventstore/store.go:67 | in a numbered log the versions present are exactly 1 to the aggregate's row count |
| EventStore.LatestIsCount | internal/eventstore/store.go:155-181 | the highest version and the latest row's version are the aggregate's row count |
| EventStore.LatestIsHighest | internal/eventstore/store.go:155-181 | in any log the latest row is one of the aggregate with the highest version of all its rows; there is none only without rows |
| EventStore.NoViolation | internal/eventstore/store.go:84-90 | for well-formed callers no insert, of any writer in any reachable state and for any lock key, hits the UNIQUE constraint |
| EventStore.StepKeepsInv | internal/eventstore/store.go:44-114 | every step of every writer keeps numbering, id alignment, one outbox row per event, disjoint staged rows and one winner per version |
| EventStore.RunKeepsInv | internal/eventstore/store.go:44-114 | the invariant holds after every run of any number of writers |
| EventStore.PrepareWellFormed | internal/aggregator/processor.go:20-54 | the call a processor builds expects the count it read and carries the next version for its own coin, readable |
| StoreTheorems.GaplessVersions | internal/eventstore/store.go:66-90 | in every run each aggregate's committed versions are 1..n without gap or repeat, and ascend in id |
| Unchecked.ViolationExactly | internal/eventstore/store.go:76-90 | in every run of any callers an insert is refused as a duplicate if and only if its aggregate id and version were used by a committed call or by an earlier event of the same call |
| Unchecked.KeysStayUnique | migrations/001_create_events_table.up.sql:10 | whatever callers do, no two committed events share aggregate id and version, and staged rows of open transactions never clash |
| Unchecked.CommitStaysGaplessIff | internal/eventstore/store.go:76-113 | a commit keeps every aggregate gapless if and only if its events continue the counts of their own aggregates |
| Unchecked.UncheckedAppendLeavesGap | internal/eventstore/store.go:72-90 | one unchecked append of any event to the empty store commits it; the log is gapless only if its version is 1 |
| Unchecked.RunCalls | internal/eventstore/store.go:44-114 | in every run of any callers the log is exactly the events of the committed calls, each call as one block |
| StoreTheorems.AtMostOneAppendWins | internal/aggregator/processor.go:22-54 | of all calls that expected the same version at most one commits, none ends in the unique-violation branch, and a committed call's events stand consecutively right after that version |
| StoreTheorems.OrdersAgree | internal/eventstore/store.go:56-107 | within an aggregate id order, outbox order and version order agree, and each event has exactly one outbox row, carrying its serialized form |
| StoreTheorems.HydrationEqualsReplay | internal/aggregator/processor.go:21-30 | in every run of processors applying the latest event to a fresh aggregate equals replaying the whole log, in version and all six fields |
| StoreTheorems.ProcessorsWriteReadable | internal/aggregator/processor.go:32-54 | everything processors append decodes and names the aggregate it is filed under |
| StoreTheorems.SequentialIsIdOrdered | internal/aggregator/service.go:55-66 | with one sequential caller events become visible in id order, whatever fails |
| StoreTheorems.LogGrows | internal/eventstore/store.go:109-113 | committed rows never change or move |
| StoreCode.Store.AppendEvents | internal/eventstore/store.go:44-114 | for any call under interference: success files the events as one block; a conflict means a non-negative expected version is not current or an event clashes; an error means a statement failed, or the lock or a key was still held after all rounds of waiting; no events is a no-op.  With nothing failing, nobody moving and lock and keys free, it appends exactly the events and their outbox rows if and only if the expected version is current or negative and no event clashes, and is a conflict otherwise.  Where all callers number their events the block stands right after the expected version and every conflict is found by the version check |
| StoreCode.Store.BeginAndLock | internal/eventstore/store.go:49-63 | ends holding the lock, or rolled back with the log unchanged by this call, because a statement failed or the lock was held after all rounds of waiting |
| StoreCode.Store.CheckVersion | internal/eventstore/store.go:65-74 | passes into the insert phase if and only if the read succeeds and the expected version is current or negative; otherwise the transaction is over, as a conflict or a failure |
| StoreCode.Store.InsertOne | internal/eventstore/store.go:76-90 | waits for an uncommitted row with the same key, then stages exactly this event, or is refused if and only if its key is taken; it is lost only if the statement fails or the wait was in vain |
| StoreCode.Store.InsertAll | internal/eventstore/store.go:76-107 | stages event and outbox row for every event, or ends refused because an event clashes (never where all callers number their events), or lost for a failed statement or a wait in vain |
| StoreCode.Store.CommitAll | internal/eventstore/store.go:109-113 | commits if and only if the statement succeeds; then the events are the last rows of the log; otherwise nothing is visible |
| StoreCode.Store.LoadEvents | internal/eventstore/store.go:117-152 | the aggregate's rows in version order, decoded; succeeds if and only if all of them decode |
| StoreCode.DecodeRows | internal/eventstore/store.go:130-151 | the row loop returns all decoded events in order or the error of the first row that fails |
| StoreCode.Store.GetLatestEvent | internal/eventstore/store.go:155-181 | the highest-version row decoded; no row is not an error, an undecodable row is |
| StoreCode.Decide | internal/aggregator/processor.go:21-51 | on any log, hydrating, handling and applying fails exactly for a bad quote or an unreadable latest event, and otherwise yields the prepared call: the highest version as expected version and one event, numbered next, that carries every field of the quote |
| StoreCode.ProcessMarketData | internal/aggregator/processor.go:20-60 | among any callers: rejected, with nothing written, exactly for a bad quote or an unreadable latest event; success files the quote, field by field, as the version after the highest one read; a conflict means that the highest version has changed or the next one is taken, and where all callers number their events that another writer appended in between; any other failure has a failed statement or a lasting lock behind it; with nothing in its way a usable quote is always appended |
| StoreCode.InsertNeverWaits | internal/eventstore/store.go:56-90 | under the advisory lock every insert is enabled and stages its row |
| StoreCode.CheckCompares | internal/eventstore/store.go:65-74 | where all callers number their events the check passes a writer if and only if the count equals its expected version |
| StoreCode.OthersKeep | internal/eventstore/store.go:53-60 | whatever the other writers do, a transaction keeps its own state and the log only grows |
| Outbox.BatchFacts | internal/eventstore/outbox.go:84-90 | the select returns undeleted unlocked rows, ascending, and skips none below the last one it returns |
| Outbox.BatchIsFull | internal/eventstore/outbox.go:84-90 | the select returns 100 rows, or every pending unlocked one |
| Outbox.PubStep | internal/eventstore/outbox.go:76-146 | every step of any publisher or writer keeps batches disjoint and publications accounted for |
| Outbox.OutboxConservation | internal/eventstore/outbox.go:76-146 | with any number of workers: one row per event, disjoint batches, every event pending or published, and its publications equal its aborted ones plus those delivered but reported as failed plus one if deleted or in flight |
| Outbox.ExactlyOnceIff | internal/eventstore/outbox.go:118-139 | once drained, each event was published 1 + its aborted + its delivered-but-reported-failed publications times; all exactly once if and only if there were none of either |
| Outbox.FirstPublicationsInVersionOrder | internal/eventstore/outbox.go:84-139 | with one publisher every publication of an event is preceded by publications of all older versions of its aggregate, wherever batches fail and whatever order commits take |
| Overtaking.OvertakingNeedsALock | internal/eventstore/outbox.go:84-139 | with any number of publishers an event is published before an older unpublished one of its aggregate only if, when its publisher selected its batch, another open transaction held the older row |
| OutboxCode.OutboxPublisher.SelectForUpdate | internal/eventstore/outbox.go:84-111 | locks the lowest unlocked pending rows in id order, or opens no batch when there is none |
| OutboxCode.OutboxPublisher.PublishAll | internal/eventstore/outbox.go:115-127 | publishes each row of a prefix of the batch exactly once, in order, up to the first message the broker refuses |
| OutboxCode.OutboxPublisher.Refused | internal/eventstore/outbox.go:120-124 | an error from Publish stops the batch; the message may have been delivered all the same |
| OutboxCode.OutboxPublisher.PublishBatch | internal/eventstore/outbox.go:76-146 | in every environment: how many rows of the selected batch it published, whether it committed and what it returns, from the outcome of each statement; each published row was published once more by it and by nobody else, and is deleted after a commit (also when a later message was refused), otherwise pending with one more aborted publication |
| OutboxCode.OthersKeep | internal/eventstore/outbox.go:76-146 | whatever writers and other publishers do, a publisher keeps its own batch and the message log only grows |
| OutboxCode.OthersSpare | internal/eventstore/outbox.go:84-90 | whatever writers and other publishers do, no row of an open batch is published, aborted or deleted by anyone else |
| Projector.ProjStep | internal/projection/projector.go:46-121 | every step, failures and crashes included, keeps the projector's invariant on a log with distinct ids |
| Projector.LogStep | internal/projection/readmodel.go:231-238 | arrivals above the horizon keep the projector's invariant |
| Projector.NothingNew | internal/projection/readmodel.go:231-257 | an empty fetch means that no committed event lies past lastID |
| Projector.NewEventsAreNext | internal/projection/readmodel.go:231-257 | a fetch returns the next events past lastID in id order, none skipped: 100 of them, or all there are |
| ProjectorCode.ProjectorLoop.Project | internal/projection/projector.go:124-152 | succeeds if and only if both writes do; the upsert writes every column of the coin's row from the event and no other row; then exactly one history row with the event's coin, current price and instant is added and lastID advances; else the history is unchanged |
| ProjectorCode.ProjectorLoop.Records | internal/projection/projector.go:58-78 | the record loop processes exactly the records before the first whose projection fails; lastID is the last processed record, and a save follows if and only if one was processed |
| ProjectorCode.ProjectorLoop.Poll | internal/projection/projector.go:52-93 | in every environment, with commits while it sleeps, inside any record and before the save: it fetches the next records of the log as it is then, processes those before the first failure, and a successful save leaves the greater of old checkpoint and last processed id; if it fetched nothing, no event committed until the fetch lies past lastID |
| ProjectorCode.ProjectorLoop.Start | internal/projection/projector.go:33-121 | after any number of rounds, with commits above the horizon at any point, idle ones included, the history gained exactly coin, price and instant of the decodable events between the start checkpoint and lastID, once each in id order, every row is as new as lastID demands, and a last round that fetched nothing had reached the end of the log as fetched; if nothing fails and nobody commits, more rounds than there are unread events drain the log and save its end |
| ProjectorCode.ProjectorLoop.UpdateMarketSummary | internal/projection/readmodel.go:38-56 | replaces the coin's row and no other |
| ProjectorCode.ProjectorLoop.AddPriceHistory | internal/projection/readmodel.go:59-69 | appends one row |
| ProjectorCode.ProjectorLoop.UpdateLastEventID | internal/projection/readmodel.go:219-229 | a saved checkpoint is the greater of old and new; a failed save changes nothing |
| Pipeline.CheckpointSafety | internal/projection/projector.go:61-93 | in every reachable state the checkpoint is at most lastID, every decodable event at or below it has its coin, current price and instant in the history and a row no older, and every history row records some logged event |
| Pipeline.HistoryExact | internal/projection/projector.go:36-121 | a process's history inserts record exactly the decodable events between its start checkpoint and lastID, each with its coin, current price and instant, once each, in id order |
| Pipeline.Convergence | internal/projection/projector.go:61-93 | each row has every column from an event no older than the coin's latest decodable event at or below lastID, after any crashes, half-done projections and failed saves |
| Pipeline.EndToEnd | internal/projection/projector.go:46-152 | once the projector has reached the end of the log each coin's row agrees with its aggregate replayed from the events in version order, and coins without events have no row |
| CatchUp.AlwaysCatchesUp | internal/projection/projector.go:46-121 | from every reachable state, in any visibility order, crashed or not, some failure-free continuation of the projector alone reaches the end of the log |
| CatchUp.ReadModelConverges | internal/projection/projector.go:46-152 | in every run whose commits lay above the horizon, some failure-free continuation makes every coin's row agree with its events |
| CatchUp.SequentialEndToEnd | internal/aggregator/service.go:55-66 | with one sequential aggregator, whatever fails, every coin's row agrees with its events once the projector has reached the end of the log |
| Pipeline.OncePerStart | internal/projection/readmodel.go:210-257 | in any visibility order the checkpoint never decreases nor passes lastID, and one process start inserts an event at most once |
| Pipeline.IdOrderedIsTimely | internal/aggregator/service.go:55-66 | every run whose events become visible in id order is one whose commits lie above the horizon |
| Pipeline.LateEventIsLostForever | internal/projection/readmodel.go:231-238 | an event that becomes visible at or below the saved checkpoint is never projected in any continuation |
| LateCommits.LostIffBelowHorizon | internal/projection/readmodel.go:231-238 | in every run an event that has become visible can still be lost in some continuation if and only if it lies at or below the horizon |
| LateCommits.AboveIsNeverLost | internal/projection/projector.go:61-93 | an event that became visible above the horizon is not lost in any continuation, however late other commits are |
| LateCommits.LateCanBeLost | internal/projection/projector.go:61-93 | for every position of the projector an unprojected event at or below the horizon has a continuation that saves a checkpoint past it |
| LateCommits.OneMoreEvent | internal/eventstore/store.go:44-114 | from every reachable store some continuation commits one more event with the next id |
| Pipeline.StoreShare | internal/aggregator/service.go:55-66 | the writers' part of a joint run is itself a run of the store |
| Counterexamples.UncheckedAppendHitsUnique | internal/eventstore/store.go:72-88 | a negative expected version reaches the unique-violation branch |
| Appends.LoneAppendCommits | internal/eventstore/store.go:44-114 | from any state an undisturbed append with the current version and a free key commits |
| Counterexamples.AbortRepublishes | internal/eventstore/outbox.go:118-139 | a run of one publisher publishes the same row twice |
| Counterexamples.LostReplyRepublishes | internal/eventstore/outbox.go:120-124 | a run publishes the same row twice although no transaction was aborted |
| Counterexamples.TwoPublishersReorder | internal/eventstore/outbox.go:84-90 | with two publishers version 2 is published while version 1 is not |
| Counterexamples.LockMayBeGone | internal/eventstore/outbox.go:84-139 | a publisher can be about to send version 2 while version 1 is pending and no transaction holds it any more |
| Counterexamples.CommitsOutOfIdOrder | internal/eventstore/store.go:76-113 | two aggregates with different lock keys can become visible against id order |
| Counterexamples.LateCommitIsSkipped | internal/projection/readmodel.go:231-238 | a reachable state has a readable committed event below the checkpoint that was never projected |
| ReadModel.RowNumberIsPosition | internal/projection/readmodel.go:174 | in a sorted partition a row's number is its position plus one |
| ReadModel.NewestIsLatest | internal/projection/readmodel.go:127-159 | the single-coin query's points are price and instant of rows of the coin, the latest first, none of the rows left out is later than one returned, and there are as many as the limit or the coin's rows allow |
| ReadModel.LatestIsNewest | internal/projection/readmodel.go:127-159 | where no two rows of the coin share an instant this determines the answer: it is the query's if and only if it has these properties |
| ReadModel.GetPriceHistory | internal/projection/readmodel.go:127-159 | the scan loop returns that answer |
| ReadModel.BatchIsLatest | internal/projection/readmodel.go:172-178 | the batch query's rows of a coin are its latest rows, as many as the limit allows, in whatever order they arrive |
| ReadModel.BatchRefinesSingle | internal/projection/readmodel.go:127-199 | the batch query's rows of a coin are the single query's, in order, if and only if they keep window order |
| ReadModel.BatchMembers | internal/projection/readmodel.go:172-178 | in whatever order they arrive, the batch query's rows of a coin are exactly its newest rows |
| ReadModel.Collect | internal/projection/readmodel.go:185-193 | the row loop gives each coin exactly its own points in row order |
| ReadModel.GetPriceHistories | internal/projection/readmodel.go:162-199 | no coin that was not asked for, and an entry for each requested coin with rows; its points are price and instant of the coin's latest rows, as many as the limit allows (100 if it is not positive), and if the rows arrive latest first they are a correct answer, in window order the single-coin query's |
| CacheKeys.DecInjective | internal/query/cached_repo.go:29 | printed integers, negative ones included, determine the integer |
| CacheKeys.CacheKeyInjective | internal/query/cached_repo.go:93 | equal keys in the three cache families mean the same request, for all ids and limits, colons included |
| CacheKeys.FamiliesDisjoint | internal/query/cached_repo.go:144 | no key belongs to two of the four families |
| CacheKeys.HistoriesKeyEqualIff | internal/query/cached_repo.go:141-144 | batch keys of non-empty lists collide if and only if the limits agree and the sorted ids, cut at spaces, give the same pieces |
| CacheKeys.KeyDeterminesRequest | internal/query/cached_repo.go:141-144 | without spaces equal keys mean the same request up to reordering, and conversely |
| CacheKeys.SpacesCollide | internal/query/cached_repo.go:144 | with a space two different requests share a flight |
| CacheKeys.SharedFlightIsSafe | internal/query/cached_repo.go:178 | whoever joins a flight gets a value of the type it asserts, for all ids |
| HistoryCache.SharedKey | internal/query/cached_repo.go:141-178 | a shared flight has the joiner's limit and kind for all ids, and the joiner's coins if neither holds a space |
| HistoryTheorems.StepKeepsInv | internal/query/cached_repo.go:92-185 | every step of any call, flight, clock or table keeps entries, flights, calls and answers sound |
| HistoryTheorems.ServedHistoryIsRecent | internal/query/cached_repo.go:92-185 | in every run each served history is the direct query's answer on a table that was current when it was read, and its age is at most the call's own time plus, from the cache, 30 s and the time of the flight that set it |
| HistoryTheorems.EntryLivesThirtySeconds | internal/query/cached_repo.go:112 | a history entry answers lookups for thirty seconds after its Set and no longer |
| HistoryTheorems.ServedAnswersTheRequest | internal/query/cached_repo.go:124-185 | for every hit and miss pattern an answer covers exactly the requested coins if its flight was its own or single-coin, or if neither its misses nor the joined flight's hold a space |
| HistoryTheorems.ServedIsDirectOnUnchangedTable | internal/query/cached_repo.go:124-185 | while the table has not changed, under the same condition, every requested coin gets exactly the direct query's answer and no other coin appears |
| HistoryTheorems.LandedOk | internal/query/cached_repo.go:144-178 | whoever waits for a flight gets sound points for its own limit, for exactly the misses of a flight with its own key |
| HistoryStale.StaleIffHeld | internal/query/cached_repo.go:92-185 | in every reachable state, for every coin and limit, an answer other than the direct query's on the current table can be served before the table changes if and only if a live entry, an open flight or an unfinished call holds one that nothing must overwrite |
| HistoryStale.LookingHeldOnce | internal/query/cached_repo.go:128-138 | where no unfinished list names the coin again after a hit, a call that is looking holds a stale answer if and only if its hit is stale |
| HistoryStale.CollidesIff | internal/query/cached_repo.go:141-144 | the flight of a list can be taken by a list without one of its coins if and only if it names two ids or its one id falls at a space into two in sorted order |
| KeyCollisions.OnlySplitting | internal/query/cached_repo.go:141-144 | another list has the batch key of a single id only if that id falls at a space into two ids in sorted order |
| KeyCollisions.WholeIsLonger | internal/query/cached_repo.go:141-144 | the single id that has the batch key of a longer list is none of its ids |
| HistoryRuns.AnswerFromOlderTable | internal/query/cached_repo.go:166-167 | for any two tables, a run in which one becomes the other can still answer for a coin and limit other than from the new one if and only if the newest points differ |
| HistoryRuns.MisansweredIff | internal/query/cached_repo.go:141-181 | a request that missed one list can be answered by a flight for another if and only if their sorted ids, cut at spaces, give the same pieces; then some request is answered with exactly the other list's coins, on any table |
| HistoryRuns.MisanswerableIff | internal/query/cached_repo.go:141-181 | a requested coin can be missing from the answer, on any table, if and only if the request names two ids or one that falls at a space into two in sorted order; all other requests are answered for exactly their coins |
| HistoryRuns.SpacesMisanswer | internal/query/cached_repo.go:141-178 | on every table a request for "a" and "b" can be answered for "a b" alone |
| CachedRepository.CachedRepository.LookupAll | internal/query/cached_repo.go:128-138 | hits go to the result, the other coins to the misses, in request order; undisturbed and with no failed Get the hits are exactly the coins with a live entry, with its points |
| CachedRepository.CachedRepository.RecheckAll | internal/query/cached_repo.go:147-157 | the same for the second round inside the flight; undisturbed, coins that are live by then are all found |
| CachedRepository.CachedRepository.QueryDatabase | internal/query/cached_repo.go:159-163 | the rows collected per coin are exactly the direct query's answers on the table of that instant |
| CachedRepository.CachedRepository.StoreAll | internal/query/cached_repo.go:164-170 | in any map order and with any failed Sets the flight's result gains exactly the database answer; undisturbed and with no failed Set each of its coins has an entry with its points and no other entry has changed |
| CachedRepository.CachedRepository.Fly | internal/query/cached_repo.go:146-173 | the flight ends complete with the merged map, or is abandoned because its query failed, which does not happen if the second look finds everything |
| CachedRepository.CachedRepository.JoinFlight | internal/query/cached_repo.go:146-178 | a joiner gets the landed flight's map; it is left without one only if the flight is abandoned, or still open when everyone has followed the whole schedule |
| CachedRepository.CachedRepository.Merge | internal/query/cached_repo.go:178-181 | the result is the hits overwritten by the shared entries, and is recorded as the answer of this call |
| CachedRepository.CachedRepository.GetPriceHistories | internal/query/cached_repo.go:124-185 | under interference every entry of the result is price and instant of its coin's latest rows, latest first, on a table that was current when read, at most 30 s before it was taken; under the same condition no other coin appears and a coin without an entry had no points; it fails only with its own query or the flight it joined.  Undisturbed and with no failed call it answers live entries with their points and every other coin with the direct answer, which is then cached |
| CachedRepository.CachedRepository.GetPriceHistory | internal/query/cached_repo.go:92-122 | the same for a single coin, for all ids |
| CachedRepository.OthersKeep | internal/query/cached_repo.go:92-185 | whatever everyone else does, a call keeps its hits and misses and a leader its flight |
| SummaryCache.ServedWasCommitted | internal/query/cached_repo.go:60-90 | in every interleaving a served row was the committed one at its flight's read step, was taken from the cache at most ten seconds after its Set, and as a direct hit was served in that time |
| SummaryCache.EntryLivesTenSeconds | internal/query/cached_repo.go:80 | a summary entry answers requests for ten seconds after its Set and no longer |
| SummaryCache.ServedLateIffHeldAcross | internal/query/cached_repo.go:60-90 | a cached row is served more than ten seconds after its Set if and only if a flight held it across the instant it expired |
| SummaryCache.ServedHalfAMinuteLate | internal/query/cached_repo.go:69-73 | a run serves a row thirty seconds after its Set |
| SummaryCache.StaleOnlyInTheAir | internal/projection/projector.go:137-147 | after an upsert and successful delete an older row can still be served if and only if a flight open at the delete carries it |
| SummaryCache.ReadBeforeUpsert | internal/query/cached_repo.go:75-83 | the read of any served row precedes every upsert of a newer row |
| SummaryCache.OneQueryPerFlight | internal/query/cached_repo.go:69-84 | in every run a flight queries the database at most once, however many callers share it |
| SummaryCache.JoinerGetsDeletedRow | internal/query/cached_repo.go:69-73 | a caller arriving after the delete is served the old row although every read row had been set |
| SummaryCode.JoinedIsServed | internal/query/cached_repo.go:69-89 | whoever joins a flight is answered when it ends, unless it was abandoned |
| SummaryCode.LeaderUndisturbed | internal/query/cached_repo.go:69-84 | whatever everyone else does, a leader's flight only gains callers |
| SummaryCode.SummaryRepository.Fetch | internal/query/cached_repo.go:70-83 | the flight ends holding a row, or is abandoned, which happens only when the query fails or there is no row; undisturbed, the row is the live entry's or the committed one, and the latter is then cached |
| SummaryCode.SummaryRepository.Wait | internal/query/cached_repo.go:69-89 | a joiner gets the landed flight's row; it is left without one only if the flight is abandoned, or still open when everyone has followed the whole schedule |
| SummaryCode.SummaryRepository.GetMarketSummary | internal/query/cached_repo.go:60-90 | the returned row is recorded as this caller's answer; a live entry is returned as is; it fails only if the query fails, there is no row, or the joined flight gives none; undisturbed and with no flight open, exactly which row it returns and what the entry is afterwards |
| Grouping.GroupingPartitions | api/graphql/dataloader.go:107-119 | in any map order every requested key is asked for exactly once and no other key at all |
| Grouping.GroupByLimit | api/graphql/dataloader.go:108-116 | one group per limit holding that limit's distinct coins in order of first appearance |
| DataloaderTheorems.StepKeepsInv | api/graphql/dataloader.go:65-153 | every step of Load, dispatch and the query service keeps batching, ownership, debts, calls and results |
| DataloaderTheorems.OneDispatcherWaits | api/graphql/dataloader.go:77-83 | pending keys are non-empty if and only if a dispatcher waits, and two never wait |
| DataloaderTheorems.OneHome | api/graphql/dataloader.go:96-101 | every registered channel is pending, owed by exactly one running batch, or delivered, and never two of these |
| DataloaderTheorems.AtMostOneResult | api/graphql/dataloader.go:146-150 | no channel is sent two results |
| DataloaderTheorems.NeverBlocked | api/graphql/dataloader.go:93-153 | a working dispatcher always has a next step: each send finds an empty buffer and a query under way can at least fail |
| DataloaderTheorems.DispatchCompletes | api/graphql/dataloader.go:118-153 | however interleaved, a dispatch is done after exactly its weight of own steps |
| DataloaderTheorems.CompletionServesAll | api/graphql/dataloader.go:118-153 | a completed dispatch has served every channel it took |
| DataloaderTheorems.DeliveredRefinesDirect | api/graphql/dataloader.go:118-152 | each delivered result is the direct per-coin query's answer for its own coin and limit on a table that was current recently (the batch's own time plus, from the cache, 30 s and the setting flight's time), or its own limit group's error |
| DataloaderTheorems.CacheHoldsAnswers | api/graphql/dataloader.go:140-144 | every cached value is such an answer, from a batch that succeeded |
| DataloaderTheorems.ReplyIsOk | api/graphql/dataloader.go:121 | what the query service answers to a dispatcher's call are sound points for that group's limit, and for all its coins unless the joined flight's key was ambiguous |
| DataloaderCode.PriceHistoryDataloader.Load | api/graphql/dataloader.go:65-83 | a hit returns the cached value and changes nothing; a miss registers a fresh channel, and only the first pending key starts a dispatcher |
| DataloaderCode.PriceHistoryDataloader.TakeBatch | api/graphql/dataloader.go:96-116 | takes all pending keys and listeners at once and groups them |
| DataloaderCode.PriceHistoryDataloader.QueryGroup | api/graphql/dataloader.go:120-122 | starts a call for the group, waits while everyone follows the schedule, and returns the answer served to this very call if there is one by then, an error otherwise |
| DataloaderCode.PriceHistoryDataloader.Deliver | api/graphql/dataloader.go:146-150 | serves every listener of the coin, in order, without blocking |
| DataloaderCode.PriceHistoryDataloader.ServeGroup | api/graphql/dataloader.go:119-151 | one call of the query service, then every coin of the group cached if it succeeded, and every listener sent the points of its own coin from that answer, or its error |
| DataloaderCode.PriceHistoryDataloader.Dispatch | api/graphql/dataloader.go:93-153 | everyone waiting when it started has been sent a result; it is the points of their own coin from the answer to a call for their group if there was one when the dispatcher looked, which is then cached as well, and an error exactly otherwise |
| DataloaderCode.OthersKeep | api/graphql/dataloader.go:65-153 | whatever other goroutines do, a dispatcher keeps its batch, and while it sleeps no listener leaves the pending map |
| Breaker.CircuitBreaker.Allow | internal/aggregator/coingecko/client.go:58-79 | admits when closed, after more than the cooldown when open, and one probe at a time when half-open |
| Breaker.CircuitBreaker.RecordFailure | internal/aggregator/coingecko/client.go:81-95 | all five fields after a failure; successes survive a re-opening |
| Breaker.CircuitBreaker.RecordSuccess | internal/aggregator/coingecko/client.go:97-113 | all five fields after a success |
| Breaker.RequestBudget | internal/aggregator/coingecko/client.go:58-95 | after a trip, while nothing succeeds, k admitted attempts by T satisfy k times cooldown below T minus the trip time, for any concurrent use |
| Breaker.CooldownExactly | internal/aggregator/coingecko/client.go:58-95 | a breaker that trips, or is open when an attempt fails, admits nobody until its cooldown has passed since then, and admits from the next instant on |
| Breaker.UnrecordedProbeBlocks | internal/aggregator/coingecko/client.go:202-203 | as long as a half-open probe is unrecorded no caller is admitted, for any concurrent use |
| Breaker.RecoversIffNotBlocked | internal/aggregator/coingecko/client.go:58-79 | after any sequential trace the breaker will admit someone at some instant if and only if no probe was lost |
| Breaker.BlockedIffProbeLost | internal/aggregator/coingecko/client.go:202-203 | a trace is blocked if and only if some probe of a tripped breaker went unrecorded |
| Breaker.NotFoundBlocks | internal/aggregator/coingecko/client.go:200-203 | three server errors, the cooldown and a 404 block the client's breaker for every later instant |
| Breaker.SequentialSemantics | internal/aggregator/coingecko/client.go:58-113 | for sequential use the fields after any trace are those of an abstract phase the trace alone determines |
| Breaker.NewBreakerSemantics | internal/aggregator/coingecko/client.go:49-56 | the same from a new breaker |
| Breaker.FlagMarksProbe | internal/aggregator/coingecko/client.go:66-75 | the in-flight flag marks exactly an unrecorded half-open attempt |
| Breaker.CalmCountsTrailing | internal/aggregator/coingecko/client.go:87-91 | while closed the failure count is exactly the trailing failures |
| Breaker.TwoSuccessesClose | internal/aggregator/coingecko/client.go:103-109 | since a trip the breaker has never closed if and only if fewer than two probes succeeded in total |
| Breaker.ExecuteWithRetry | internal/aggregator/coingecko/client.go:179-234 | at most three attempts, one if a half-open probe fails and the cooldown exceeds the sleep; the breaker followed exactly these turns; which reply, refusal or cancellation decides the result, that every earlier reply was worth retrying, and how long each sleep is |

## Left out

- HTTP, gRPC, GraphQL and protobuf generated code, tracing, metrics, logging, configuration and process wiring: no protocol of this system is in them.
- `Store.Subscribe` and the streaming resolvers: lossy forwarding of the relayed messages and a filter on the event type.
- `IPRateLimiter`: its token bucket belongs to a library.
- Migrations, the history pruner, poll-interval arithmetic and the outer loops' timers: single clamps or single statements; pruning does not touch the insert history the theorems speak of, and is one of the table changes the cached queries allow.
- `GetMarketSummaries`: the same cache and flight shape as `GetMarketSummary` over a list; only its key is modelled. Its entries are never deleted, only expire.
- Rounding of prices to NUMERIC columns, 32- and 64-bit overflow of versions and ids, and time formatting.
- Waiting for a channel or for the context in `Load`: the model ends where the caller starts to wait; a caller that gives up leaves its channel behind and the dispatcher still serves it.
