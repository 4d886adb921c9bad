# Smart Procurement: a verified model of the pipeline

Smart Procurement observes data sources, turns changes into signals, recomputes per-item
aggregates, detects procurement risks and has a language model explain them. Everything between
is handed over through a durable job queue that any number of worker processes drain. This
project models that pipeline as one transition system over its tables, and the two
human-controlled lifecycles beside it: field mappings and capability promotion. Each transaction
is a method that changes a session's tables (or a service's), proved equal to a specification
function; the lemmas are about those functions and about every run of the system.

What is proved, in short:

- **The queue.** However workers claim, run, raise, skip and crash, the business tables are the
  handlers of the completed jobs applied once each in commit order; a job is claimed at most
  `max_attempts` times; a skipped or crashed job stays running for ever.
- **The data.** One row per upsert key, the lookup cache never differs from a fresh lookup, a
  synchronisation is a fold of updates of one keyed map, and the signals of every watched row form
  a chain that replays it from its first value to its current one.
- **The hand-over.** Every signal has a recomputation, every completed recomputation its own
  detection, and a source is observed by a constant number of jobs until one fails for good.
- **The findings.** One ongoing finding per condition, evidence that is exact and free of
  duplicates, one explanation per finding for ever, although explaining itself never checks for one.
- **The enterprises.** No run that does nothing for an enterprise changes anything it has.
- **The numbers.** Every stored figure is one value of the item's rows, rounded once; rounding never
  raises a false shortage; detection and explanation see the same deliveries.
- **The meaning of each step.** What a record supplies, what a figure is, which risks are reported
  and what an explanation says are stated of the rows, the replies and the tables themselves, apart
  from the functions that compute them.

## Layout

| file | models |
|---|---|
| `Basics`, `Folds`, `Tables` | identifiers, `numeric(18,4)` rounding, folds, the tables and the session |
| `JobQueue`, `Gaps` | `src/app/jobs/queue.py`, `src/app/observation/observability.py` |
| `Schema`, `SyncSpec`, `Sync` | `src/app/integration/sync.py`: tables, meaning, transaction with the cache |
| `RecordProps`, `SyncProps`, `SyncCatalog`, `Resync` | what one record does, what synchronising keeps, its keyed map, repeating it |
| `Aggregates`, `AggregateProps`, `FigureProps` | `src/app/observation/aggregates.py`: the transaction, what it keeps, what each figure is |
| `Rules`, `Detection`, `DetectionProps`, `RiskProps` | `src/app/analysis/rules.py`: the rules, the transaction, what it keeps, what it reports |
| `Explain`, `ExplainProps` | `src/app/analysis/explain.py`, `src/app/ai/structured.py` |
| `Worker`, `Handovers`, `Api` | handlers, what they write, enqueue and refuse, `src/app/worker.py`, dismissing a risk, checking a connection, a failed suggestion |
| `Pipeline`, `Retries`, `Lifetimes`, `ExplainOnce`, `Journal`, `Chains`, `Monitoring`, `Invariant`, `Passes`, `Freshness`, `Dismissal`, `Tenancy` | the transition system and its theorems over runs |
| `Mappings`, `MappingProps` | `src/app/integration/mapping_service.py`, `src/app/integration/mapping_ai.py` |
| `Capabilities` | `src/app/lorm/capability_service.py` |

## Model

| member | source | states |
|---|---|---|
| Journal.ExactlyOnce | src/app/worker.py:44-80 | After any run the business tables are those at its start with each job that completed in between applied exactly once, in commit order, beside the interactive steps; every entry applies to the tables the entries before it left; done jobs stay done |
| Journal.EntriesAreTheJobs | src/app/worker.py:44-61 | What is replayed for a job is that job's own task |
| Journal.RaisedAttemptIsIsolated | src/app/worker.py:52-58 | An attempt that raises changes nothing but the queue fields of its own job, which then failed or waits for a later time |
| Worker.RunJob | src/app/worker.py:44-61 | One attempt commits the handler's effect with the job done, or only the job's retry; never a part of the effect |
| Worker.ProcessOnce | src/app/worker.py:64-80 | A pass claims due jobs of every kind, attempts those of the wanted kind in claim order and leaves the others claimed |
| Worker.Handle | src/app/analysis/jobs.py:22-44 | Which tables each handler leaves and exactly when it raises; an unavailable model does not raise, a figure that does not fit its column does |
| Handovers.HandlerRaises | src/app/worker.py:44-61 | Exactly when the handler of each task raises, in terms of the tables and of what it takes from outside |
| Handovers.HandlerWrites | src/app/worker.py:44-61 | Which tables a returning handler may write: every other one is as it was |
| Handovers.HandlersEnqueue | src/app/integration/jobs.py:40-56 | Exactly the jobs a returning handler enqueues, each with its scope, its due time and five attempts to go: an observation its next run, one interval ahead, after a recomputation of the items its signals name; a recomputation one detection; a detection explanations of findings of its enterprise; any other task nothing |
| Worker.EffectKeepsData | src/app/integration/jobs.py:40-56 | Every handler keeps keys unique and the signal log complete, and never drops or re-keys a row |
| Passes.PassIsRun | src/app/worker.py:64-80 | A worker's pass is a run of the transition system: one claim, then an attempt or a skip per claimed job |
| Passes.WantedMeans | src/app/worker.py:69-73 | A pass attempts each claimed job of the wanted kind as often as it was claimed, and no other |
| Passes.SkipAndCrashStrand | src/app/worker.py:69-73 | A job that its worker skips, or holds when it crashes, is running and held by nobody |
| Passes.StrandedForEver | src/app/worker.py:64-80 | Such a job never changes again in any run |
| Passes.StrandedExplanationBlocks | src/app/analysis/rules.py:387-412 | While its explanation job is stranded a finding is never explained, in any run |
| Pipeline.ExclusiveKept | src/app/jobs/queue.py:50-71 | A job is held by at most one worker, which has it locked, after every step of any interleaving |
| JobQueue.ClaimDue | src/app/jobs/queue.py:50-71 | Claims the earliest due pending jobs that nobody holds locked, at most the limit, none left out while the limit is not reached |
| JobQueue.SelectDue | src/app/jobs/queue.py:53-62 | The answer of the claiming query: distinct, due, ordered, and nothing earlier left out |
| JobQueue.MarkFailedOrRetry | src/app/jobs/queue.py:80-89 | Counts the attempt, records at most 2000 characters of the error, releases the lock, then fails the job at its last attempt or makes it due after min(5*2^attempts, 3600) seconds |
| JobQueue.BackoffMonotone | src/app/jobs/queue.py:23-24 | Waits grow with the attempts and never exceed an hour |
| JobQueue.TotalBackoffClosedForm | src/app/jobs/queue.py:23-24 | Failing n attempts waits 10*(2^(n-1)-1) seconds up to the cap, then one capped wait per attempt |
| Retries.RaisedAttemptWaits | src/app/jobs/queue.py:80-89 | In the pipeline an attempt that raises and is not the last makes its job due min(5*2^attempts, 3600) seconds after the step |
| Retries.WaitsOverARun | src/app/jobs/queue.py:23-24 | Over every run the waits that the raised attempts of a job set add up to 10*(2^(n-1)-1) seconds for n failed attempts up to the tenth, then to one capped hour more per attempt; the attempt that fails it for good sets none |
| Lifetimes.ClaimsBounded | src/app/jobs/queue.py:50-89 | Over any run the claims of a job are exactly the turns it used, so at most its maximum of attempts |
| Lifetimes.EndedInEveryRun | src/app/jobs/queue.py:74-89 | A done or failed job is the same after every run |
| Lifetimes.WorkProgresses | src/app/jobs/queue.py:50-89 | Every claim and every attempt strictly lowers a well-founded measure of the jobs that were there |
| SyncSpec.Find | src/app/integration/sync.py:343-352 | The lookup answers a row with the key, or there is none |
| SyncProps.KeyDecides | src/app/integration/sync.py:84-108 | Two rows have the same upsert key exactly when all identity columns of their table agree |
| Resync.ReferencesLookBack | src/app/integration/sync.py:73-108 | Every entity is synchronised, and what a reference answers comes before what refers to it |
| Sync.Extract | src/app/integration/sync.py:254-265 | An attribute is read exactly when some mapping to it has a present field that is not null and whose text is not empty after its transform; its value is that text for the last such mapping |
| Sync.ExtractedReads | src/app/integration/sync.py:254-285 | The same of the reading that every synchronisation is proved to use |
| RecordProps.PlanMeans | src/app/integration/sync.py:248-319 | A record is skipped exactly when it reads nothing or lacks a required identity value; otherwise it supplies the typed value of every data column it reads and the row that each of its references names, and nothing else |
| RecordProps.UpsertMeans | src/app/integration/sync.py:322-376 | An upsert changes the row under the key and no other: an existing row keeps its key, its unsupplied columns and its time of creation; a new one takes the defaults for what is missing or null |
| RecordProps.SignalMeans | src/app/integration/sync.py:57-63 | An update emits a signal of a kind exactly when it changes stock, demand, a price, a lead time or a defect rate |
| RecordProps.AcceptsMeans | src/app/domain/models.py:26-208 | Which values the database refuses: a forbidden null, more than fourteen digits, or a status, origin or currency outside its check |
| RecordProps.LinesAreInOrder | src/app/integration/sync.py:163-204 | A batch is read entity by entity in order, each record by record through that entity's own mappings |
| RecordProps.UpsertsAreCounted | src/app/integration/sync.py:196-204 | The reported upserts of an entity are its records that were not skipped |
| RecordProps.SyncLeaves | src/app/integration/sync.py:205-234 | What a returning synchronisation leaves of its source, its gap and the queue: healthy, closed, and one recomputation of just the items its signals name if it logged any |
| RecordProps.SyncStamps | src/app/integration/sync.py:187-204 | Every row and signal it leaves is as it was, or is the enterprise's and carries the source and the time of the fetch |
| Sync.ResolveRefs | src/app/integration/sync.py:287-319 | Resolving through the cache gives the rows fresh lookups would give, and keeps every cache entry true |
| Sync.CacheStaysValid | src/app/integration/sync.py:168-204 | A cache entry stays what a fresh lookup would answer, whatever is upserted later |
| Sync.Upsert | src/app/integration/sync.py:322-376 | Inserts with defaults or updates the non-identity columns, logs the watched change, or raises when the database refuses the row |
| Sync.DiffSignal | src/app/integration/sync.py:379-418 | Logs one signal if and only if the record supplies a value for the watched column that differs from the stored one; the signal names the row, its item and supplier, and the values before and after |
| Sync.ReportIsDiff | src/app/integration/sync.py:379-418 | That meaning determines the signal |
| Sync.SyncSource | src/app/integration/sync.py:128-234 | The loops with the cache leave exactly the rows, signals, counters, source, gap and job of the fold without a cache, and raise exactly when it does |
| SyncProps.FoldKeepsData | src/app/integration/sync.py:322-418 | Any batch keeps one row per key and a signal log in which every watched row's signals chain from its first value to its current one; new signals are counted and name a known item |
| SyncProps.BatchRaises | src/app/integration/sync.py:163-209 | A batch raises exactly when it has a first line whose new or written values the database does not accept |
| SyncProps.UpdatedKey | src/app/integration/sync.py:355-372 | An update never changes the upsert key of its row |
| SyncProps.FindStable | src/app/integration/sync.py:343-352 | A lookup that answered a row answers the same row ever after |
| SyncCatalog.SyncRefinesMap | src/app/integration/sync.py:163-209 | A batch is a fold of updates of one map from upsert keys to column values: same failures, same rows |
| SyncCatalog.UniqueKeysRepresentable | src/app/integration/sync.py:343-352 | Rows can be read as such a map exactly when no two share a key |
| Resync.ResyncIsIdempotent | src/app/integration/sync.py:322-418 | Reading a consistent batch twice: the second run succeeds exactly when all not-null values are readable, then changes no data column, and is silent exactly when watched values have at most four decimals |
| Resync.FifthDecimalSignals | src/app/integration/sync.py:391-400 | One record of an item and its stock, read twice: a quantity with a fifth decimal changes no data in the second run and still logs a signal |
| Resync.FifthDecimalExists | src/app/integration/sync.py:391-400 | There are such quantities that the database accepts |
| Resync.UnreadableQuantityRaisesLater | src/app/integration/sync.py:322-376 | The same record with an unreadable quantity: the first run inserts the default, the second raises |
| Aggregates.RecomputeOne | src/app/observation/aggregates.py:50-89 | Writes the item's aggregate from its trusted rows, or nothing when it has no trusted stock, or raises when a figure does not fit its column |
| FigureProps.FiguresMean | src/app/observation/aggregates.py:50-177 | An item has figures exactly when it has stock that is not lost, and each is an exact value of its rows rounded once: consumption of the newest row per day of its period, total stock of all warehouses over that consumption, the earliest open delivery, the newest price and its change from the newest of the others, the mean lateness of its received orders |
| FigureProps.TotalStockAdds | src/app/observation/aggregates.py:67 | The total of no row is nothing, of one row its quantity, of two parts their sum |
| FigureProps.TotalIsExactStock | src/app/observation/aggregates.py:53-67 | The total that is used is the sum of the quantities of the item's stock rows that are not lost |
| FigureProps.OneMoreStockRow | src/app/observation/aggregates.py:53-67 | One more stock row raises the exact stock by its quantity, wherever it stands in the table |
| FigureProps.OneMoreWarehouse | src/app/observation/aggregates.py:67-74 | With stock in one more warehouse the stored cover is the sum of the quantities over the daily consumption, and no other figure changes |
| FigureProps.OverflowMeans | src/app/observation/models.py:104-128 | An item overflows exactly when one of its five numbers has more than fourteen digits before the point |
| Aggregates.RecomputeAll | src/app/observation/aggregates.py:31-47 | Recomputes the enterprise's items in scope, an empty scope meaning all; one refused item raises |
| Aggregates.NextExpectedDelivery | src/app/observation/aggregates.py:112-125 | The earliest expected date of an open order, if there is one |
| AggregateProps.LatestIsNewest | src/app/observation/aggregates.py:92-109 | The row used is one that no other is newer than by date and then creation time, however the database lists rows that tie |
| AggregateProps.TrendComparesNewestTwo | src/app/observation/aggregates.py:128-151 | For every number of prices and every tie, the trend is the relative change between a newest price and a newest of the others; a single price has none |
| AggregateProps.PricesOfDifferentSuppliers | src/app/integration/sync.py:100 | With one row per key, two prices of an item in one enterprise are of different suppliers |
| AggregateProps.SingleSupplierHasNoTrend | src/app/observation/aggregates.py:128-151 | An item that one supplier prices never has a trend, so no price anomaly is ever seen for it |
| AggregateProps.FiguresRelevant | src/app/observation/aggregates.py:50-89 | An item's figures depend on nothing but its own rows that are not lost |
| AggregateProps.RecomputeRaises | src/app/observation/aggregates.py:179-219 | A recomputation raises exactly when some item in scope has trusted stock and a figure its column cannot hold |
| AggregateProps.RecomputeEffect | src/app/observation/aggregates.py:179-219 | Otherwise it refreshes exactly the items in scope with trusted stock, leaves every other aggregate as it was, and keeps one per item |
| AggregateProps.OverflowHappens | src/app/observation/models.py:104-128 | Rows that the database accepts and whose days of cover it refuses |
| AggregateProps.ScopedRefinesFull | src/app/observation/aggregates.py:31-47 | Exactly when each of the scoped and the full sweep raises; and when both return, that they give every item the same figures exactly when the rest was up to date |
| AggregateProps.NoStockNoAggregate | src/app/observation/aggregates.py:64-65 | When a recomputation returns, an item without trusted stock has no aggregate exactly when it had none before |
| Rules.EvaluateProductionStop | src/app/analysis/rules.py:142-181 | The rule compares the cover with the soonest need |
| Rules.SoonestNeed | src/app/analysis/rules.py:160-170 | The smallest number of days until a demand |
| Rules.ProductionStopFires | src/app/analysis/rules.py:142-181 | Fires exactly when there are demands, all of them ahead, and none within the days covered |
| Rules.ShortfallLadder | src/app/analysis/rules.py:99-139 | A shortfall is high when at most a quarter of the limit is covered and low above three quarters |
| Rules.SupplierDelayFires | src/app/analysis/rules.py:184-209 | Fires exactly with at least three samples whose total exceeds three days each |
| Rules.SupplierDelayLadder | src/app/analysis/rules.py:184-209 | A delay is high from six days on average and low below four and a half |
| Rules.QualityFires | src/app/analysis/rules.py:234-259 | Fires exactly when the defect rates exceed five percent on average |
| Rules.QualityLadder | src/app/analysis/rules.py:234-259 | A degradation is high from ten percent on average and low below seven and a half |
| Rules.PriceAnomalyFires | src/app/analysis/rules.py:212-231 | Fires exactly on a trend of ten percent or more, up or down; high from twenty percent and low below fifteen |
| Rules.LessCoverNotMilder | src/app/analysis/rules.py:52-57 | Less cover never silences a shortfall rule and never lowers its severity |
| Rules.LessStockNotMilder | src/app/observation/aggregates.py:67-74 | Less stock never silences a shortage on the stored cover and never lowers its severity |
| Rules.StoredCoverDecides | src/app/observation/aggregates.py:67-74 | A shortage on the rounded cover fires exactly when the exact cover is more than half a last decimal below the lead time |
| Rules.NoFalseShortage | src/app/analysis/rules.py:99-116 | A shortage on the stored cover means stock < daily * lead time exactly, and one by more than 0.00005 days is never missed |
| RiskProps.ShortageIsReal | src/app/analysis/rules.py:292-310 | The same for the candidate detection applies, with the stock, consumption and lead time summed and read from the rows themselves |
| Detection.GroupByKey | src/app/analysis/rules.py:501-550 | Samples are grouped by key in first-seen order, each group keeping its samples in order |
| DetectionProps.KeysFirstSeen | src/app/analysis/rules.py:501-550 | Of two groups the one whose key is seen first comes first |
| Detection.Apply | src/app/analysis/rules.py:353-384 | Lists the condition once, links its new evidence and requests an explanation unless ready or queued |
| Detection.DetectRisksIn | src/app/analysis/rules.py:280-350 | Applies the candidates of all six rules in order and returns the findings |
| DetectionProps.ListedEffect | src/app/analysis/rules.py:353-384 | A candidate changes no existing finding and adds one exactly when its condition has no ongoing finding |
| DetectionProps.EvidenceExact | src/app/analysis/rules.py:436-464 | Afterwards the finding is linked once to its previous evidence and to every supporting signal, and no other finding's links change |
| DetectionProps.AllHandled | src/app/analysis/rules.py:280-350 | Every candidate ends as an ongoing finding, fully linked, and ready or queued; uniqueness and soundness of links are kept |
| RiskProps.DetectionMeans | src/app/analysis/rules.py:280-350 | After detection each of the six risks that the rows and aggregates show, stated without the rules, is an ongoing finding with exactly its evidence, explained or waiting to be; every finding added states a risk that is there, with its severity; earlier findings are as they were |
| RiskProps.SeenIsAtRisk | src/app/analysis/rules.py:99-231 | What the rules see of an aggregate is a risk it shows, of its item and at its severity |
| RiskProps.AtRiskIsSeen | src/app/analysis/rules.py:99-231 | Every risk an aggregate shows, whichever of the rows that tie is used, is seen by its rule |
| RiskProps.DelaySeenIsLate | src/app/analysis/rules.py:184-209 | The supplier rule sees a supplier exactly when its received orders are at least three and late by more than three days on average |
| RiskProps.QualitySeenIsDegrading | src/app/analysis/rules.py:234-259 | The quality rule sees an item and supplier exactly when their defect rates exceed five percent on average |
| RiskProps.CandidatesInOrder | src/app/analysis/rules.py:280-350 | Risks of aggregates are applied first, then those of suppliers, then those of quality |
| DetectionProps.DetectionExact | src/app/analysis/rules.py:280-350 | After detection every candidate of a rule has an ongoing finding, and every finding added is a candidate |
| RiskProps.ShortagesEndToEnd | src/app/analysis/rules.py:280-350 | On up-to-date aggregates, every shortage of the exact quantities by more than 0.00005 days has an ongoing finding after detection, and every shortage it added is one of the exact quantities |
| DetectionProps.DetectionIsIdempotent | src/app/analysis/rules.py:280-412 | Detecting again at the same time on unchanged inputs returns the same findings and adds nothing |
| Explain.GenerateStructured | src/app/ai/structured.py:36-87 | Stops at the first valid reply, makes at most the allowed calls, sleeps 0.5*(2^(calls-1)-1) seconds, and writes the fail-safe only after the last failure |
| Explain.SleepBound | src/app/ai/structured.py:53-68 | No outcome sleeps longer than a full failure |
| Explain.EvidencePayloads | src/app/analysis/explain.py:159-215 | The evidence is the linked signals, then a delayed supplier's received orders |
| Explain.ExplainRisk | src/app/analysis/explain.py:61-136 | On success the explanation is of the enterprise and the finding, says what, why and how confidently the first valid of three replies says, and cites exactly what of that reply's citations is evidence |
| ExplainProps.ExplanationMeans | src/app/analysis/explain.py:61-156 | The handler keeps the first valid of three replies if it cites evidence: one explanation more with its text and its grounded citations in order, the finding ready; otherwise none, the finding down, the capability's gap open and one record with the reason |
| ExplainProps.EvidenceMeans | src/app/analysis/explain.py:159-215 | Evidence of a finding is a signal linked to it or, for a late supplier, one of that supplier's received orders with both dates |
| ExplainProps.EvidenceInOrder | src/app/analysis/explain.py:159-215 | Signals come before deliveries, and deliveries in the order of the table |
| Explain.GroundedOrClean | src/app/analysis/explain.py:61-156 | An attempt adds one explanation citing a non-empty part of the evidence, or none, one open gap per key and one audit record; nothing else of the finding changes but its AI status |
| Explain.SucceedsExactly | src/app/analysis/explain.py:98-113 | An attempt succeeds exactly when the first valid reply cites some evidence of the finding |
| Explain.SameOrders | src/app/analysis/explain.py:185-213 | Grouping all deliveries and picking one supplier gives exactly the lateness of that supplier's evidence, order by order |
| Explain.DelayEvidenceSuffices | src/app/analysis/explain.py:159-215 | When the supplier rule fires, the evidence of the supplier's finding is exactly its received orders, at least three, more than three days late on average |
| ExplainOnce.ExplainInvKept | src/app/analysis/rules.py:387-412 | At most one explanation job of a finding is pending or running, none once it is ready, and ready findings have exactly one explanation, after every step |
| ExplainOnce.ReadyStays | src/app/analysis/explain.py:61-136 | No job about a ready finding is ever attempted, so it stays ready |
| ExplainOnce.StepOnStatus | src/app/analysis/explain.py:61-136 | Only an attempt at its own explanation job changes a finding's AI status |
| ExplainOnce.OneExplanationForEver | src/app/analysis/rules.py:387-412 | In every run a finding that is ready stays ready and keeps exactly its first explanation |
| Chains.SyncCovers | src/app/integration/sync.py:205-231 | A synchronisation enqueues a recomputation exactly when it logs a signal, and that job covers every signal it logs |
| Chains.CoverKept | src/app/integration/sync.py:205-231 | After every step each signal has a recomputation of its item enqueued no earlier than the signal |
| Chains.RecomputationBlocked | src/app/observation/aggregates.py:179-219 | An attempt at a recomputation raises exactly when its scope holds an item that overflows; it then refreshes no item and enqueues no detection |
| Chains.CoveringRunRefreshes | src/app/observation/jobs.py:21-34 | An attempt at the covering job, unless blocked, ends with the signal's item up to date with the data then, the job done and the detection in the queue; if blocked, with nothing but the job's retry |
| Chains.DetectionsMatchRecomputations | src/app/observation/jobs.py:21-34 | A detection is enqueued exactly when a recomputation of the enterprise completes, over any step |
| Chains.DetectionsMatchInEveryRun | src/app/observation/jobs.py:21-34 | After every run from an empty queue there are as many detections as completed recomputations |
| Chains.ObservationRaises | src/app/integration/sync.py:128-209 | An observation raises exactly when the source is not the enterprise's, the fetch fails, or the batch has a first refused line |
| Chains.NextRunScheduled | src/app/integration/jobs.py:40-56 | An attempt schedules the next observation, one interval ahead, exactly when none of these holds |
| Chains.ObservationsConserved | src/app/integration/jobs.py:40-56 | A source's live observations change in number only by submitting one from outside, or when one of these holds at the last attempt |
| Chains.ObservationsInEveryRun | src/app/integration/jobs.py:40-56 | Over every run, live observations are those at first and those submitted, less those that failed for good |
| Freshness.UntouchedKeepsFigures | src/app/observation/aggregates.py:50-89 | An item none of whose rows is added or changed, but for when and where it was read, keeps its figures |
| Freshness.NeverSilentlyStale | src/app/integration/sync.py:205-231 | Over every run, an item that was up to date and has been touched only by reported changes is up to date or has a recomputation that is not done |
| Freshness.UnwatchedFollowedByNothing | src/app/integration/sync.py:57-63 | A batch read only as unwatched entities logs no signal and enqueues no recomputation, whatever it changes |
| Freshness.BlockedNeverDone | src/app/jobs/queue.py:80-89 | A recomputation whose scope stays blocked is never done in any run |
| Monitoring.SourceGapStep | src/app/observation/observability.py:23-48 | A source's gap is open after a step exactly when a connection test just failed, or it was open and the source has not just recovered |
| Monitoring.FailedFetchLeavesNoTrace | src/app/integration/sync.py:150-161 | A failed fetch opens the gap inside its transaction; under the worker nothing of it survives and no next run is scheduled |
| Monitoring.HealthAgreesKept | src/app/integration/service.py:195-226 | A source with an open gap is unavailable, and once checked it is unavailable only with an open gap |
| Monitoring.AiGapForEver | src/app/ai/structured.py:70-87 | The gap of any AI capability, once open, is open after every run |
| Gaps.OpenGap | src/app/observation/observability.py:23-40 | Opens a gap unless its key has an open one, and answers an open gap of the key |
| Gaps.OpenCloseEffect | src/app/observation/observability.py:23-48 | Opening leaves exactly one open gap of its key, closing leaves none, and other keys are untouched |
| Invariant.FreshSystem | src/app/integration/models.py:60-63 | A new deployment satisfies the invariant |
| Invariant.RunsKeepInvariant | src/app/worker.py:64-80 | Every run keeps all of the above, drops no row, signal, finding or link, and changes a finding only in its AI status and once from ongoing to dismissed |
| Tenancy.EnterprisesAreIsolated | src/app/enterprise/models.py:1-6 | Over every run that does nothing for an enterprise all it has, its sources, rows, signals, aggregates, findings, explanations, gaps and audit records, stays exactly what it was and grows by nothing |
| Tenancy.StepIsolates | src/app/enterprise/models.py:1-6 | A step changes data of no enterprise but the one of the job it attempts or of the user, and every aggregate stays of the enterprise of its item |
| Invariant.RecurrenceIsNew | src/app/analysis/rules.py:353-433 | A condition seen again after dismissal becomes a new finding |
| Invariant.DismissalKeepsExplaining | src/app/api/routers/risks.py:174-201 | Dismissal does not stop a queued explanation: it succeeds exactly as it would have before |
| Dismissal.TerminalForEver | src/app/analysis/rules.py:353-433 | A terminal finding of which no explanation is pending or running is the same after every run, down to its AI status |
| Dismissal.TerminalChange | src/app/analysis/explain.py:61-136 | A step changes a terminal finding exactly when it attempts that finding's explanation and the outcome differs from the finding's AI status |
| Dismissal.DismissedBecomesReady | src/app/analysis/explain.py:61-136 | From every state with a pending explanation of an ongoing finding that has evidence, claiming it, dismissing the finding and running the job leaves the finding dismissed and ready |
| Dismissal.DismissedFindingExplained | src/app/analysis/rules.py:387-412 | The same from detection on, for every supported risk without an ongoing finding |
| Dismissal.DismissedFindingExists | src/app/analysis/rules.py:387-412 | A state that satisfies the invariant, and a run from it in which a dismissed finding becomes ready |
| Api.DismissRisk | src/app/api/routers/risks.py:174-201 | Dismisses an ongoing finding with reason, user, times and audit record; a terminal one is a conflict and changes nothing |
| Api.CheckConnection | src/app/integration/service.py:187-226 | Records health, error and check time, and opens or closes the source's gap accordingly; without a connector it raises and records nothing |
| Api.SuggestionFailedMeans | src/app/api/routers/data_sources.py:249-267 | Suggestions that find the model unavailable leave one record and the open gap of observing the inventory |
| Mappings.MappingService.CreateMapping | src/app/integration/mapping_service.py:138-164 | A mapping starts as a suggestion with one event; a foreign source or an unknown entity changes nothing |
| Mappings.MappingService.ConfirmMapping | src/app/integration/mapping_service.py:181-192 | Confirms any visible mapping that is not retired, with its event |
| Mappings.MappingService.ConfirmMappingsBulk | src/app/integration/mapping_service.py:203-252 | Equals single confirmations of the eligible identifiers, each once, in order of first mention, and reports the others with a reason |
| Mappings.MappingService.RejectMapping | src/app/integration/mapping_service.py:255-270 | Rejects any visible mapping and forgets its confirmer |
| Mappings.MappingService.RetireMapping | src/app/integration/mapping_service.py:273-286 | Retires any visible mapping and keeps its confirmer |
| Mappings.MappingService.EditMapping | src/app/integration/mapping_service.py:289-312 | Changes only the given fields, never the status; an unknown entity changes nothing |
| Mappings.MappingService.SuggestMappings | src/app/integration/mapping_ai.py:58-128 | Adds the model's suggestions for introspected fields that the source does not map that way yet; when the model stays unavailable no mapping changes |
| MappingProps.HistoryIsComplete | src/app/integration/mapping_service.py:121-312 | Over every run a mapping's events chain its snapshots from creation to now, decide its status and name its confirmer, which every confirmed mapping has; only people decide |
| MappingProps.SuggestedAllInv | src/app/integration/mapping_ai.py:92-128 | Suggestions only append suggested mappings of introspected fields and touch no existing one |
| MappingProps.SuggestionsMean | src/app/integration/mapping_ai.py:92-128 | Afterwards the source maps every suggested field that was introspected, and each mapping added is a suggestion that no earlier mapping of the source matched |
| MappingProps.BulkPartitions | src/app/integration/mapping_service.py:203-252 | What is reported confirmed and failed partitions the request |
| MappingProps.FailuresSay | src/app/integration/mapping_service.py:203-252 | Every failure names a requested mapping and its reason: not one of the enterprise's source, or not suggested any more and what it is instead |
| MappingProps.EligibleInOrder | src/app/integration/mapping_service.py:203-252 | Mappings are confirmed in the order of the request |
| MappingProps.DedupedInOrder | src/app/integration/mapping_service.py:203-252 | Identifiers are handled once each, in the order of their first mention |
| MappingProps.BulkConfirmsExactly | src/app/integration/mapping_service.py:203-252 | Exactly the requested suggested mappings of the source become confirmed, and every other one is as it was |
| MappingProps.RepeatedBulkIsSilent | src/app/integration/mapping_service.py:203-252 | Repeating a bulk confirmation changes nothing |
| MappingProps.RetirementEndsByRejection | src/app/integration/mapping_service.py:181-312 | A retired mapping stays retired under a command exactly when the command is not its own enterprise's rejection of it |
| MappingProps.RetirementIsFinal | src/app/integration/mapping_service.py:181-312 | Over a run it stays retired throughout exactly when no command of the run is such a rejection |
| MappingProps.RejectionRevives | src/app/integration/mapping_service.py:181-270 | A retired mapping cannot be confirmed, but once rejected it can |
| MappingProps.OthersUntouched | src/app/integration/mapping_service.py:121-312 | No command changes a mapping of another enterprise |
| MappingProps.FreshRegistry | src/app/integration/models.py:83-99 | A registry without mappings satisfies the invariant of the history |
| Capabilities.CapabilityService.ValidateTarget | src/app/lorm/capability_service.py:172-182 | A target is valid exactly when it is known, one step up, and not a forbidden L5 |
| Capabilities.CapabilityService.CreatePromotionRequest | src/app/lorm/capability_service.py:71-93 | Records a pending request for a valid target, or changes nothing |
| Capabilities.CapabilityService.ApprovePromotion | src/app/lorm/capability_service.py:112-143 | Re-checks the target, then raises the level, decides the request and appends the event; otherwise changes nothing |
| Capabilities.CapabilityService.RejectPromotion | src/app/lorm/capability_service.py:146-160 | Decides a pending request without touching a level |
| Capabilities.HistoryIsTheLevel | src/app/lorm/capability_service.py:112-182 | Over every run a level is the initial one plus the number of events, which climb one step each; events and approved requests match one to one; a capped capability never reaches L5; no level falls |
| Capabilities.FreshLedger | src/app/lorm/models.py:50-68 | Capabilities without requests or events satisfy the invariant of the history |
| Capabilities.ApprovalShutsOutCompetitors | src/app/lorm/capability_service.py:112-143 | Once one request for a step is approved no competing one is, in any run |

## Where the code and its documentation differ

The model follows the code. Each entry names the input and the exact condition.

- `src/app/integration/sync.py:10` says that an update that changes the value emits a signal. The
  comparison is between the stored value (four decimals) and the unrounded new one, so a fifth
  decimal emits a signal on every run (`Resync.FifthDecimalSignals`); `Resync.ResyncIsIdempotent`
  says exactly when a repeated batch is silent.
- `src/app/integration/jobs.py:7` says that the next observation is enqueued after every attempt.
  `Chains.NextRunScheduled` says exactly after which.
- `src/app/observation/observability.py:4` says that a gap is closed when its input recovers.
  Nothing closes the gap of an AI capability (`Monitoring.AiGapForEver`), and the gap a failed
  synchronisation opens does not survive its transaction (`Monitoring.FailedFetchLeavesNoTrace`);
  `Monitoring.SourceGapStep` says exactly when a source's gap is open.
- `src/app/observation/aggregates.py:10` says that an item without trustworthy stock gets no
  aggregate. An older one is kept (`AggregateProps.NoStockNoAggregate`).
- `src/app/observation/aggregates.py:3` describes one sweep over every item in scope. One item whose figure
  does not fit its column aborts it for all (`AggregateProps.RecomputeRaises`,
  `AggregateProps.OverflowHappens`).
- A dismissed finding is terminal, and yet an explanation queued before can make it ready
  (`Dismissal.DismissedFindingExists`); `Dismissal.TerminalForEver` and `Dismissal.TerminalChange`
  say exactly when a terminal finding stays as it is.
- `src/app/integration/mapping_service.py:3` puts retirement at the end of a mapping's life, and
  allows rejection from any state. Rejection revives a retired mapping
  (`MappingProps.RejectionRevives`), and nothing else does (`MappingProps.RetirementIsFinal`).
- `src/app/analysis/rules.py:212` takes an item's price trend as its newest price against the one
  before. Prices have one row per supplier, so the trend compares suppliers, and an item with one
  supplier never has one (`AggregateProps.SingleSupplierHasNoTrend`).
- The counter of upserts counts updates as well as insertions.

## Left out

- Overlap of transactions: each transaction is one atomic step with one clock reading; anomalies of READ COMMITTED between handlers that run at the same time are not modelled.
- Liveness: no claim is made that a job ever runs, because nothing takes back the jobs of a crashed or restricted worker.
- Connectors, HTTP, authentication, encryption, migrations, seeding, read-only routers and policy validation: no state of the pipeline is decided there.
- The prompt, provider, model name, weighting factors and reasoning texts of the language model: its replies are arbitrary parsed values or failures.
- Text conversion: transforms, dates and decimals are read by given total functions that may answer nothing; NaN and infinite decimals are excluded.
- Decimal precision: intermediate results are exact reals instead of 28 significant digits; stored values are rounded to four decimals.
- Row order: unordered queries answer rows in insertion order; rows that an order does not separate are listed by an arbitrary rank that is fixed when the row is inserted; the order of confirmed mappings is an input.
- Reading `job.id` after the rollback of a failed attempt: the object is expired then, and in an asynchronous session the read may itself fail and leave the job running; the model takes the retry as reached.
- The confidence of a suggested mapping: the input is the model's value already rounded to three decimals.
- Mappings onto identifier columns: the attribute of a mapping is a data column, a reference by natural key or an unknown name.
- Provenance paths, ingestion times and signal payload texts: written but never read by the pipeline.
- Per-warehouse aggregates: the code never writes one.
- Identifiers: a row's identifier is its position, so identifiers are fresh and ordered; foreign-key deletion effects are not modelled because no modelled code deletes.
- History variables: a row's first values, a signal's row, a job's signal watermark, a capability's first level and an event's request are kept to state properties; no operation reads them.
- Worker.Handle: suggesting mappings as a job is only its success or failure there; the tables it writes are those of Mappings, and the introspected fields it needs are an input of the command.
- Worker.RunJob: requires the data invariant, which every run keeps (Invariant.RunsKeepInvariant); on tables with two rows of one key, which no run produces, the code's single-row lookup raises.
- Aggregates.RecomputeAll: when it raises the state it leaves is not described, because the worker rolls it back.
- Sync.SyncSource: when it raises after a refused row the state it leaves is not described, because the worker rolls it back.
