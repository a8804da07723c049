# Synthetic Persona Sandbox: a verified model

A Dafny model of the stores behind the Synthetic Persona Sandbox and of the handlers that write them, with proofs of
what they keep over whole runs: over every delivery sequence, every interleaving, every restart.

Each module has three layers. Pure functions say what one step of the code does, and a fold over steps says what a run
does. Classes and methods do the same work in place, as the code does, and are proved equal to those functions. The
lemmas are about the functions, over all runs. Lemmas named for an effect, or as "in full" or "exactly", say what one
step does field by field, in terms of the data alone, and so pin the functions themselves.

| file | models |
|---|---|
| `WireFormat.dfy` | the Confluent framing, the schema-id cache, the hexadecimal dead-letter payload |
| `ConsumerLoop.dfy` | the poll, decode, process, dead-letter, commit loop, its restarts and its shutdown signal |
| `BehavioralStore.dfy` | the deduplicated event table and the undeduplicated profile |
| `Ingestion.dfy` | the loop and the stores together, end to end |
| `FeatureExtraction.dfy` | the grown query and the grouped aggregate over the event table |
| `SimulationRuns.dfy` | the enqueueing transaction racing its job, the synchronous endpoint, what completed rows hold |
| `RunCache.dfy` | the cache-aside read of one run |
| `Competition.dfy`, `CompetitionRuns.dfy` | ranking a campaign's variants, re-runs, and many competitions in flight |
| `Freshness.dfy` | edits, extractions and drift checks writing `is_stale` without locks |
| `TenantStore.dfy` | the org-scoped store: every request, and what it does to each org's rows |
| `TenantEffects.dfy` | what each request stores, removes and answers, row by row |
| `OrgIsolation.dfy` | the store, the shared minute counter and the shared memo: isolation of orgs as a two-run property |
| `RateLimiter.dfy` | the clock-aligned limiter |
| `StimulusPrompt.dfy` | stimuli, their validators, the prompt text |
| `ReplyParsing.dfy`, `Inference.dfy` | fence stripping, validation, scoring, disk memo, retry |

## What the proofs show about the code

Properties that fail are kept as the code has them, with the exact condition or a concrete run.

- **Orgs are not isolated**, in three ways. A campaign's `segment_id` is never checked against the org, and its foreign
  key sets it to NULL when the segment goes (migrations/003_campaigns_and_sim_columns.sql:27). Queued starts of all orgs
  share one minute counter. Synchronous starts share one memo of completions. An org's responses are those it would get
  alone if and only if each of its requests meets the guard of its kind: no foreign target; the shared count lets the
  start through exactly if its own count would; a file found under a key for which the org alone has none shows what its
  own call would.
- **The queued run can stay pending for good.** The job may finish before the row is committed; its updates then match
  nothing. The committed row ends terminal if and only if the worker's last update follows the commit.
- **A failed synchronous call leaves no row.** The failed status is flushed and then rolled back by the raised error.
- **A competition cannot store a run under the shipped schema.** Its INSERT gives no org, and the column may not be
  NULL (migrations/001_initial_schema.sql:47; the ORM, api/models/simulation.py:30, says it may). Then no variant is
  ever scored or ranked. Everything else about competitions is proved for a schema that allows NULL.
- **A competition that fails part-way is repeated whole.** The module's own description says only the missing variants
  are simulated again (orchestration/dags/variant_competition.py:12-14), but scores reach the variants only at the
  fan-in.
- **Overlapping competitions of one campaign can list a lower score first**, with two variants of rank 1. All listings
  at all moments are right if and only if every fan-in of the campaign fits the ranked variants it did not fetch; when
  none of its own variants has been deleted, that means they all rank below everything it writes.
- **is_stale can lie.** It tells the truth about a segment throughout a run if and only if every embedding of it while
  fresh is of its definition, every update finds an embedding that is, and no edit that had loaded a stale row changes
  the definition of a row that has become fresh. One edit racing one extraction leaves a fresh mark over another
  definition's embedding exactly in two orders of their steps; one of them relies on the ORM leaving unchanged columns
  out of an UPDATE.
- **An escaping exception ends the consumer.** The retry decorator raises its own error type, which
  `process_record` does not catch, so three failed inserts end the loop; the branch that reports a PostgreSQL error is
  not reached from an insert. A record without a value ends it, too: it has no hexadecimal form to dead-letter. After a
  restart the rest of that batch is lost, if something in it was committed, or the
  message blocks its group, if it came first.
- **A message is handled twice only after a failed first commit.** No handled message is ever left uncommitted if and
  only if the first message of every batch commits or escapes; a commit that fails later in a batch repeats nothing.
- **Profiles count redeliveries**, by exactly the number of matching redeliveries; features count session ends, which
  profiles never do; any category filter removes every session from the features.
- **A likelihood that is not a number is read as certainty**, and a line separator other than a newline inside a fenced
  reply is rewritten.
- **A null verbatim response completes a run without its text**: a completed row lacks it if and only if the last reply
  stored for it said null.
- **A cache file cut short fails its key for good**, and a cache write that leaves no file spends a second reply.
- **A newline in an ad's text can forge a line of its prompt.** Without newlines a prompt tells all it shows.
- **The limiter admits twice its limit in some 60 seconds.** It is aligned to clock minutes, while the repository's
  README calls it sliding. It counts one default org.
- **The run cache is never used.** No cached body carries the `org_id` that its reader compares, so every read is a
  query, and never a stale one.

## Model

| member | source | states |
|---|---|---|
| WireFormat.RoundTrip | ingestion/schemas/schema_registry.py:105-140 | given a codec that inverts, decoding an encoded record returns its id and the record, for every id that encodes |
| WireFormat.HeaderRoundTrip | ingestion/schemas/schema_registry.py:118 | every id below 2^32 survives the four header bytes |
| WireFormat.EncodeFails | ingestion/schemas/schema_registry.py:116-120 | encoding fails exactly on an id that does not fit or a record the schema refuses |
| WireFormat.EncodedBytes | ingestion/schemas/schema_registry.py:116-120 | a message is a zero, the id with its highest byte first, and the body |
| WireFormat.RejectedExactly | ingestion/schemas/schema_registry.py:134-140 | which bytes are refused for what, byte by byte, and what an accepted message decodes to |
| WireFormat.DecodeMonotone | ingestion/schemas/schema_registry.py:92-101 | what decodes with the cached schemas decodes to the same with all of the registry's |
| WireFormat.AcceptedReframes | ingestion/schemas/schema_registry.py:134-140 | an accepted message has its five header bytes and a known schema; framing any record under the accepted id reproduces those bytes |
| WireFormat.HeaderMatters | ingestion/schemas/schema_registry.py:134-136 | changing any of the five header bytes changes the decoded result or has the message rejected |
| WireFormat.SchemaRegistryClient.GetSchemaById | ingestion/schemas/schema_registry.py:78-101 | with the registry in reach the answer is the registry's; out of reach it is the cache's; the cache only grows and stays a part of the registry |
| WireFormat.SchemaRegistryClient.DecodeMessage | ingestion/schemas/schema_registry.py:122-140 | the cache is invisible while the registry answers; otherwise exactly the cached schemas decode; and whatever decodes is what the registry's schemas give |
| WireFormat.SchemaRegistryClient.RegisterSchema | ingestion/schemas/schema_registry.py:52-76 | a registration fills both caches with the registry's id, a failed one neither |
| WireFormat.HexRoundTrip | ingestion/consumers/base_consumer.py:82-88 | the dead-letter payload gives back the original bytes |
| WireFormat.HexAt | ingestion/consumers/base_consumer.py:84 | the payload has two lower-case hexadecimal digits for each byte, the higher one first |
| ConsumerLoop.Consumer.Run | ingestion/consumers/base_consumer.py:110-142 | the nested loop over any script of polls ends in the state the session function gives |
| ConsumerLoop.Consumer.HandleMessage | ingestion/consumers/base_consumer.py:120-137 | one loop body: decode, process, dead-letter, commit, or an escaping exception |
| ConsumerLoop.MessageEffect | ingestion/consumers/base_consumer.py:120-137 | for each message: escapes kill the loop before anything is recorded; otherwise it is processed, or on the queue with its topic, its bytes and the error decoding or processing gave, or lost on the way; then the whole position is committed, or the loop dies |
| ConsumerLoop.BatchEffect | ingestion/consumers/base_consumer.py:118-137 | the closed form of a batch: every message before the stop is in exactly one of processed, dead-lettered and dead-letter-lost; the commit covers the whole batch from the first message on; the loop dies exactly when a message stops it |
| ConsumerLoop.InsideBatch | ingestion/consumers/base_consumer.py:116-137 | inside a batch the committed and unhandled messages are within the batch's unhandled tail, all of which is committed already |
| ConsumerLoop.SessionsCover | ingestion/consumers/base_consumer.py:110-142 | over any number of restarts everything below the committed offsets was handled or lies in the tail of a batch in which the loop died |
| ConsumerLoop.CleanSessionLosesNothing | ingestion/consumers/base_consumer.py:110-142 | in a session that no exception ends, everything committed was handled and nothing polled is left over |
| ConsumerLoop.RepeatsExactly | ingestion/consumers/base_consumer.py:136-137 | over any restarts no handled message is left uncommitted at the end of a session if and only if the first message of every batch the loop reaches commits or escapes |
| ConsumerLoop.AtMostOnce | ingestion/consumers/base_consumer.py:110-142 | under that condition, over any restarts each message gets at most one fate, and the committed messages without one are exactly the lost tails |
| ConsumerLoop.FailedCommitRepeats | ingestion/consumers/base_consumer.py:136-137 | a failing first commit leaves a handled message above the committed offsets: whatever the later sessions poll, once they have read past it they were given it again |
| ConsumerLoop.SignalDrains | ingestion/consumers/base_consumer.py:74-76 | a signal inside a batch lets all of the batch be handled and committed, then stops before the next poll |
| ConsumerLoop.PoisonBlocks | ingestion/consumers/base_consumer.py:120-137 | a message that escapes, by its processing or by its null value, blocks the group while restarts come upon it first, after any polls that bring nothing: nothing is recorded or committed |
| ConsumerLoop.RejectedBytesReachDlq | ingestion/consumers/base_consumer.py:122-127 | bytes the wire format rejects take the dead-letter path whatever processing would have done, and their payload recovers them |
| Ingestion.EveryEventAccounted | ingestion/consumers/base_consumer.py:110-142 | over any restarts of the loop with its real handler, each event below the committed offsets is in the table as itself, or its message is on the dead-letter queue, lost on the way there, or in a lost tail; the table holds nothing else; and the stores are what the store model makes of the deliveries handed over |
| Ingestion.ProfileMissesAreDead | ingestion/consumers/behavioral_consumer.py:96-101 | over any restarts a message counts as processed only if its event is in the table and, when profiles count it, reached its profile; every stored event its profile missed is on the dead-letter queue or lost on the way there |
| Ingestion.SessionsRefine | ingestion/consumers/behavioral_consumer.py:77-101 | the loop with the real handler is the loop model, each outcome being what the store model returns |
| BehavioralStore.BehavioralConsumer.ProcessRecord | ingestion/consumers/behavioral_consumer.py:77-152 | the dispatch, the three handlers, their writes in order and their failures |
| BehavioralStore.OutcomeExactly | ingestion/consumers/behavioral_consumer.py:87-101 | exactly when the answer is success, which failure, or an escaping exception, by topic, event, failed inserts and profile store |
| BehavioralStore.EffectExactly | ingestion/consumers/behavioral_consumer.py:105-213 | exactly what a delivery does to the table and to every field of the profile, and that no other row or profile changes |
| BehavioralStore.LastSeenIsLast | ingestion/consumers/behavioral_consumer.py:185-213 | a profile was last seen at its last counted event, over every run |
| BehavioralStore.BehavioralConsumer.InsertBehavioralEvent | ingestion/consumers/behavioral_consumer.py:156-175 | up to three attempts; the row is inserted unless the id is taken or all fail |
| BehavioralStore.TableIsFirstOffered | ingestion/consumers/behavioral_consumer.py:167-175 | for every delivery sequence, failures included, the table has exactly the ids that reached it, each with the first event offered under it |
| BehavioralStore.TableIsDistinctEvents | ingestion/consumers/behavioral_consumer.py:167-175 | when redeliveries repeat their event, the table is the set of distinct events |
| BehavioralStore.CounterAgainstTable | ingestion/consumers/behavioral_consumer.py:179-213 | with store failures too, each counter plus the events the profile missed equals the matching rows plus the recounted redeliveries |
| BehavioralStore.CounterIsRowsPlusRepeats | ingestion/consumers/behavioral_consumer.py:105-213 | without failures, each counter is the matching row count (session starts only) plus exactly the matching redeliveries |
| BehavioralStore.CategoriesOverRun | ingestion/consumers/behavioral_consumer.py:186-192 | the categories are the first-seen-order deduplication, and the same with every redelivery left out |
| BehavioralStore.TotalDrift | ingestion/consumers/behavioral_consumer.py:195-206 | after n purchases the stored total is within 0.005 n of the exact sum for any tie rule |
| BehavioralStore.WholeCentsExact | ingestion/consumers/behavioral_consumer.py:202-204 | it equals the sum when all amounts are whole cents |
| BehavioralStore.DriftIsReached | ingestion/consumers/behavioral_consumer.py:202-204 | the bound is attained for every n |
| FeatureExtraction.BuildQuery | ml/segment_models/feature_engineering.py:62-79 | the query grown clause by clause returns, over any table, exactly the users with a row within the days of history and of one of the categories, if any are named, who meet the thresholds; each with the counts, the sum, the categories and the latest of those rows |
| FeatureExtraction.RunPipeline | ml/segment_models/feature_engineering.py:103-147 | a run returns just that |
| FeatureExtraction.ExtractionSpelled | ml/segment_models/feature_engineering.py:33-60 | the grouped query, from the definition itself: users, counts, amount spent, categories and latest row |
| FeatureExtraction.CountsAddUp | ml/segment_models/feature_engineering.py:33-60 | a user's three counts sum to the matching rows in the window |
| FeatureExtraction.ExtractedUsers | ml/segment_models/feature_engineering.py:33-60 | a user appears exactly when some row is selected, dated by the latest such row |
| FeatureExtraction.WideningRaises | ml/segment_models/feature_engineering.py:33-60 | widening the window keeps every user and lowers no count |
| FeatureExtraction.MoreDaysRaise | ml/segment_models/feature_engineering.py:62-79 | so does a definition with more days of history and no thresholds |
| FeatureExtraction.CategoryFilterDropsSessions | ml/segment_models/segment_schema.py:104-112 | with any category filter the session count is 0 and the conversion rate equals the purchase count |
| FeatureExtraction.ProfileAgainstFeatures | ingestion/consumers/behavioral_consumer.py:150-151 | profile counters against feature counts over the same run: they differ by the redeliveries and by the session ends that only features count |
| SimulationRuns.HistoryIsLegal | api/workers/simulation_worker.py:82-150 | for every interleaving of transaction and job the committed history is the one its commit order determines, and a subsequence of pending, running, completed or failed |
| SimulationRuns.TerminalIffLastAfterCommit | api/routers/simulations.py:98-119 | the row is there and terminal exactly when the worker's last update follows the commit |
| SimulationRuns.LostRaceStaysPending | api/services/db.py:26-34 | a row committed after its job has ended stays pending whatever follows |
| SimulationRuns.LostRaceExists | api/routers/simulations.py:105-119 | a concrete interleaving loses the race |
| SimulationRuns.JobIsItsMoves | api/workers/simulation_worker.py:82-150 | the job run alone on its row does what the protocol's worker steps do |
| SimulationRuns.Database.RunSimulationJob | api/workers/simulation_worker.py:82-150 | the job's row afterwards, field by field, for each way it can go; no other row changes |
| SimulationRuns.Database.RunSimulationSync | api/routers/simulations.py:163-212 | row added, filled with the reply and committed, or all of it rolled back, and the status answered |
| SimulationRuns.SyncCommitsOneOrNothing | api/routers/simulations.py:163-206 | each synchronous call adds exactly one completed row, of its own org, segment and stimulus and with the reply it got, if there is one that can be stored and the commit succeeds, and otherwise changes nothing |
| SimulationRuns.CompletedRowsAreScored | api/workers/simulation_worker.py:101-134 | in every committed state, whatever workers, synchronous calls and competitions wrote, a completed row has its result fields and its stored score is the clamped, nudged stored likelihood |
| SimulationRuns.CompletedRowsAreFullExactly | api/workers/simulation_worker.py:101-134 | whoever writes and in whatever order, a completed row has all its result fields if and only if the last reply stored for it did not say null; otherwise it lacks the verbatim text alone |
| SimulationRuns.RowsTellLastReplies | orchestration/dags/variant_competition.py:169-194 | over every run of writes by worker, synchronous calls and competitions a row's text, sentiment, likelihood, nudged score, key factors and time are those of the last reply stored for it, and it is completed only by one |
| SimulationRuns.RowsKeepRequests | api/routers/simulations.py:98-107 | a row exists exactly once something has stored it, and keeps its org, segment and stimulus for good |
| SimulationRuns.WriteEffect | api/workers/simulation_worker.py:153-169 | what each write does to its own row, field by field, and to no other |
| SimulationRuns.RowTellsItsJob | api/workers/simulation_worker.py:82-150 | for every interleaving the committed row keeps what was enqueued; completed it holds a reply the worker got, failed the worker's error and no result, until then neither |
| SimulationRuns.RoundsToNearest | migrations/003_campaigns_and_sim_columns.sql:13 | stored values are the nearest ten-thousandths |
| SimulationRuns.ScoreRoundsExactly | migrations/003_campaigns_and_sim_columns.sql:9-15 | rounding to four decimals commutes with nudging and clamping, so the stored pair stays exactly consistent |
| RunCache.ReadsAreQueries | api/routers/simulations.py:276-293 | over every interleaving of reads, cache writes and failures, expiries and table changes a read returns what the org-scoped query returns at that moment |
| RunCache.ReadsShowRuns | api/models/simulation.py:86-102 | what a reader is shown of a run of its org, field by field, and what it is answered otherwise |
| RunCache.ReadCaches | api/services/cache.py:67-73 | a read leaves the body it showed, for a day if the run is completed and for 30 seconds otherwise, and no other entry |
| RunCache.CacheHoldsBodies | api/models/simulation.py:68-102 | no cached payload ever carries an org_id |
| RunCache.NoCrossOrgRead | api/routers/simulations.py:281-289 | if one org finds a run every other org gets 404 |
| RunCache.RunReader.Read | api/services/cache.py:57-73 | the read with its cache lookups, expiries and write-back |
| Competition.RanksAreStandings | orchestration/dags/variant_competition.py:209-226 | ranks are a bijection onto 1..n, a rank is better exactly for a higher score or an equal score earlier in the input, score and run are the result's own, and no other row changes |
| Competition.PlacesFollowAbove | orchestration/dags/variant_competition.py:209-210 | the position the stable descending sort gives two results follows score, then input order |
| Competition.SecondRunIsFixedPoint | orchestration/dags/variant_competition.py:138-152 | from the second run on ranks, scores and run links no longer change; scores are the first run's, and the run links are NULL |
| Competition.RerunIgnoresInference | orchestration/dags/variant_competition.py:138-152 | a re-run's results do not depend on what inference would say |
| Competition.RerunSwapsExactly | api/models/campaign.py:46 | a re-run, fetched in any order, swaps two variants exactly when their scores agree to four decimals and the second fetch returned them the other way round |
| CompetitionRuns.ListingExactly | api/routers/campaigns.py:211-219 | for every run, overlapping competitions included: every listing of a campaign at every moment gives the ranked variants by rising rank and falling score, then the unranked ones by creation, if and only if every fan-in of the campaign fits the ranked variants it did not fetch |
| CompetitionRuns.FanInExactly | orchestration/dags/variant_competition.py:209-226 | one fan-in leaves its campaign in order if and only if each rank and score it writes fits each ranked variant it did not fetch, which can be read before the first UPDATE; fetched variants may have been deleted |
| CompetitionRuns.FitsWhenAllPresent | orchestration/dags/variant_competition.py:215-226 | when no fetched variant is gone the condition is: each such variant ranks beyond the last rank written, with no higher a score than any written |
| CompetitionRuns.ListingIsPodium | api/routers/campaigns.py:211-219 | so the listing is right after any run in which no two competitions of a campaign overlap, with any additions, deletions and failures |
| CompetitionRuns.OverlapBreaksPodium | api/routers/campaigns.py:211-219 | two overlapping competitions of one campaign leave two variants with rank 1 and list the lower score first |
| CompetitionRuns.RerunInfersNothing | orchestration/dags/variant_competition.py:138-152 | once all of a campaign's variants have scores, and while its variants stay the same, no step of any run calls inference for them |
| CompetitionRuns.UnfinishedKeepsRows | orchestration/dags/variant_competition.py:209-226 | any run without a fan-in changes no variant's row, whatever was simulated |
| CompetitionRuns.UnfinishedIsRepeated | orchestration/dags/variant_competition.py:138-152 | so a variant scored by an unfinished competition is inferred again by the next |
| CompetitionRuns.NotNullNeverRanks | orchestration/dags/variant_competition.py:176-194 | if a run may not lack an org, in every run of any length no variant is scored or ranked and no run is stored |
| CompetitionRuns.UndisturbedCompetition | orchestration/dags/variant_competition.py:246-264 | whatever the order and repetition of the mapped simulations, an undisturbed competition writes the table the ranking function describes and completes its campaign |
| CompetitionRuns.VariantEffect | api/routers/campaigns.py:171-253 | adding and deleting a variant, field by field, and that no other changes |
| CompetitionRuns.DagEffect | orchestration/dags/variant_competition.py:71-123 | what a fetch needs and takes |
| CompetitionRuns.SimulateEffect | orchestration/dags/variant_competition.py:126-202 | a stored score is handed on without a run; otherwise inference is called, and its score and run are handed on if the run can be stored |
| CompetitionRuns.FanInEffect | orchestration/dags/variant_competition.py:228-233 | a fan-in with all results completes its campaign and touches neither runs nor inference |
| CompetitionRuns.Postgres.FetchCampaign | orchestration/dags/variant_competition.py:71-123 | the three refusals and what a fetch hands on |
| CompetitionRuns.Postgres.SimulateVariant | orchestration/dags/variant_competition.py:126-202 | the skip, the inference, the INSERT and their failures |
| CompetitionRuns.Postgres.RankAndPersist | orchestration/dags/variant_competition.py:205-233 | the loop of updates writes the ranking function's table and completes the campaign |
| Freshness.FreshExactly | api/routers/segments.py:140-142 | for every run of edits, extractions, checks and deletions in any number: is_stale = FALSE implies trained and an embedding of the current definition at every moment if and only if every step suits the segment, which can be read before the step |
| Freshness.FreshMeansCurrent | orchestration/dags/extract_segment_data.py:138-144 | in every run in which no definition edit is flushed inside an extraction of its segment, and none that had loaded a stale row is open across an extraction's update, is_stale = FALSE implies the segment is trained and its stored embedding was built from its current definition |
| Freshness.ApiEffect | api/routers/segments.py:40-46 | creating, deleting, loading and flushing, field by field, and that no other row changes |
| Freshness.ExtractionEffect | orchestration/dags/extract_segment_data.py:66-146 | fetching, embedding and updating, field by field |
| Freshness.CheckEffect | ml/evaluation/drift_detector.py:89-169 | cutoff and count of a check, and that a mark raises the flag of what was listed and nothing else |
| Freshness.RaceExactly | api/routers/segments.py:129-147 | one edit and one extraction of a segment in any interleaving, among anything else: a fresh mark over another definition's embedding arises exactly in the two stated orders |
| Freshness.MarkCatchesAllDrift | ml/evaluation/drift_detector.py:95-181 | when a mark commits, every segment untrained or trained before the check's cutoff is stale, whatever ran since the query |
| Freshness.OverMarksOnlyRetrained | ml/evaluation/drift_detector.py:144-169 | a mark only raises listed segments, and one that no longer qualifies was retrained since the query |
| Freshness.MarkedAtMostListed | ml/evaluation/drift_detector.py:171-181 | marked_count is at most stale_count, and equal exactly when no listed segment was deleted |
| Freshness.MoreStaleThanScanned | ml/evaluation/drift_detector.py:100-113 | stale_count can exceed scanned_count, since the two queries see different states |
| Freshness.NegativeThresholdMisses | ml/evaluation/drift_detector.py:95 | for every threshold below zero a run from an empty catalogue ends with a mark that misses a drifted segment |
| Freshness.Catalogue.UpdateSegment | api/routers/segments.py:129-147 | load and flush in one request: a new definition is stored and the segment becomes stale, otherwise neither changes |
| Freshness.Catalogue.ExtractSegmentData | orchestration/dags/extract_segment_data.py:156-160 | an undisturbed extraction leaves its segment fresh and current and every other segment as it was |
| Freshness.Catalogue.UpdateSegmentMetadata | orchestration/dags/extract_segment_data.py:138-144 | training time and flag of one row, nothing else, and nothing at all for a deleted segment |
| Freshness.DriftDetector.Scan | ml/evaluation/drift_detector.py:89-142 | the report lists the query's rows in order, each aged more than the threshold or never trained |
| Freshness.DriftDetector.MarkStale | ml/evaluation/drift_detector.py:144-169 | exactly the listed rows that exist become stale, and are counted |
| Freshness.DriftDetector.ScanAndMark | ml/evaluation/drift_detector.py:171-181 | undisturbed, a segment ends stale exactly when it was stale or had drifted, and marked_count equals stale_count |
| OrgIsolation.NonInterference | api/routers/campaigns.py:256-271 | for every sequence of store requests and run starts of any orgs, an org's responses equal those after deleting all other orgs' requests if and only if it targets no foreign segment, each queued start is let through by the shared count exactly if by its own, and each file a synchronous start finds under a key without an own file shows what its own call would; and then its rows are the same, too |
| OrgIsolation.NonInterferenceAnyTexts | ml/synthetic_data/claude_client.py:98-130 | without a word about error texts: the same, if also the files agree that both worlds have for a start |
| OrgIsolation.QueuedGuardCounts | api/services/rate_limiter.py:63-91 | the guard of a queued start: it does not reach the counter, or the shared count of its minute and the org's own are both below the limit or both not |
| OrgIsolation.CountersFollowTicks | api/services/rate_limiter.py:95-96 | the counter is fed by the queued starts of all orgs, and by nothing else |
| OrgIsolation.BorrowingNothingGuards | ml/synthetic_data/claude_client.py:98-130 | while no start of an org finds a file for a key without its own, the memo makes no difference, whatever others ask of keys it has files for |
| OrgIsolation.OthersUseUpTheMinute | api/routers/simulations.py:66-72 | once other orgs' starts have used up a minute, any start of an org in it is refused that would be let through alone |
| OrgIsolation.OthersAnswerIsReused | api/routers/simulations.py:174-196 | an answer another org's start left in the memo serves the same ask of an org that alone would fail |
| OrgIsolation.ReuseExample | api/routers/simulations.py:174-196 | with any reply that parses, two orgs with like segments reach that case in two requests |
| OrgIsolation.Api.RunSimulationAsync | api/routers/simulations.py:66-128 | limiter, lookups, insert and enqueueing, with the failures of each |
| OrgIsolation.Api.RunSimulationSync | api/routers/simulations.py:134-212 | lookups, memo, reply and insert, with the failures of each |
| OrgIsolation.QueuedInFull | api/routers/simulations.py:66-128 | a queued start in full: the limiter first, then segment, stimulus and queue, and the run stored |
| OrgIsolation.AnswerInFull | api/routers/simulations.py:174-212 | a synchronous start with a completion: the reply's own fields at the store's precision, or its refusal, and whether a run is stored |
| OrgIsolation.NewStartIsAnsweredItself | ml/synthetic_data/claude_client.py:98-130 | whatever all orgs sent before, a start that shows something else than every earlier one is answered by its own API calls |
| TenantStore.OwnStep | api/routers/segments.py:65-147 | an org's own request does on its rows alone what it does on the whole store, unless it names a foreign segment |
| TenantEffects.EraseNeedsAdmin | api/routers/org.py:224-256 | after an erase by an admin no segment, campaign, variant or run of the org is left, and of the others nothing changes but the targets of campaigns aimed at its segments; nobody else erases |
| TenantEffects.ClearErases | api/routers/admin.py:388-420 | clearing does the same and reports the rows it removed: what was there is what is left and what is reported |
| TenantEffects.DeleteSegmentRemoves | api/routers/segments.py:151-180 | the segment and its runs go, campaigns aimed at it lose their target, nothing else changes |
| TenantEffects.DeleteCampaignRemoves | api/routers/campaigns.py:155-166 | the campaign and its variants go, nothing else changes |
| TenantEffects.DeleteVariantRemoves | api/routers/campaigns.py:223-253 | a variant goes only through its own campaign |
| TenantEffects.CreateSegmentStores | api/routers/segments.py:40-51 | the row stored and shown, field by field |
| TenantEffects.UpdateSegmentWrites | api/routers/segments.py:136-147 | the fields that are given, and staleness by a new definition alone |
| TenantEffects.CreateCampaignStores | api/routers/campaigns.py:56-73 | the draft stored, or the refusal of its target |
| TenantEffects.UpdateCampaignWrites | api/routers/campaigns.py:125-151 | the fields that are given, or the refusal of the target with nothing changed |
| TenantEffects.AddVariantStores | api/routers/campaigns.py:182-196 | the variant stored, or the refusal of a stimulus without a type |
| TenantEffects.MissingIsRefused | api/routers/campaigns.py:256-271 | what is not there, or another org's, is not found, a malformed id is refused, and nothing changes |
| TenantEffects.ListSegmentsShows | api/routers/segments.py:65-86 | the total, and page after page the org's segments, each once, newest first |
| TenantEffects.ListCampaignsShows | api/routers/campaigns.py:87-107 | the same of campaigns |
| TenantEffects.ListRunsShows | api/routers/simulations.py:230-257 | the same of runs, of one segment if it is given |
| TenantEffects.ListVariantsShows | api/routers/campaigns.py:211-219 | a campaign's variants, each once, oldest first |
| TenantEffects.StatsCount | api/routers/admin.py:229-262 | the statistics count exactly the org's rows |
| TenantStore.OtherStep | api/routers/org.py:246-253 | another org's request, clear and erase included, changes nothing of this org's |
| TenantStore.ForeignNameShows | api/routers/campaigns.py:143-147 | naming another org's segment is accepted, and fails where that org's rows are absent |
| TenantStore.InterferenceExample | api/routers/campaigns.py:56-73 | a concrete run in which one org sees another's segment come and go |
| TenantStore.StepKeepsWf | migrations/003_campaigns_and_sim_columns.sql:24-61 | every request keeps the foreign keys, and runs with their segment's org |
| TenantStore.NewestFirstSorted | api/routers/segments.py:72-78 | a listing has every row once, newest first |
| TenantStore.Tables.ClearDatabase | api/routers/admin.py:388-409 | the deletes in order, and the counts returned, against the set of the org's rows |
| TenantStore.Tables.DeleteOrgData | api/routers/org.py:224-256 | for an admin the org's rows go, otherwise nothing does |
| TenantStore.Tables.Handle | api/services/db.py:26-34 | every writing request, through the commit or rollback bracket, does what the step function says |
| RateLimiter.AdmittedExactly | api/services/rate_limiter.py:63-91 | with store faults at any point, exactly the first LIMIT requests of a clock minute that reach the counter are admitted, and all that do not |
| RateLimiter.AdmittedWithStoreUp | api/services/rate_limiter.py:63-86 | with the store up exactly min(n, LIMIT) of n requests of a clock minute are admitted |
| RateLimiter.CountersOutliveTheirMinute | api/services/rate_limiter.py:68-71 | no counter expires inside its own minute |
| RateLimiter.CountersExpire | api/services/rate_limiter.py:69-71 | with the store up no counter lives for ever: it expires 120 seconds after its minute's first request |
| RateLimiter.RollingWindowBound | api/services/rate_limiter.py:63-74 | any 60-second window admits at most twice the limit |
| RateLimiter.RollingWindowBoundReached | api/services/rate_limiter.py:53-55 | for every limit some run in clock order attains it |
| RateLimiter.RetryAfterLandsOnMinute | api/services/rate_limiter.py:84 | retry_after is in 1..60 and ends on the next minute's first second |
| RateLimiter.Limiter.CheckSimulationRateLimit | api/services/rate_limiter.py:50-91 | increment, expiry, branch and fail-open as one step of the store |
| ReplyParsing.FenceTransparent | ml/synthetic_data/persona_inference.py:149-189 | fencing a body, with any info string and outer whitespace, leaves it unchanged if and only if newlines are its only line breaks |
| ReplyParsing.FenceOnlyStrips | ml/synthetic_data/persona_inference.py:149-189 | for such a body fenced and bare text agree up to outer whitespace |
| ReplyParsing.SeparatorRewritten | ml/synthetic_data/persona_inference.py:149-189 | any line break between two lines, a carriage return too, becomes a newline |
| ReplyParsing.ParsedIsAccepted | ml/synthetic_data/persona_inference.py:49-55 | for every reply text parsing raises or yields values the constructor accepts |
| ReplyParsing.ReplyInFull | ml/synthetic_data/persona_inference.py:155-189 | which error a reply gives, in order, or where each field of the response comes from: a valid sentiment stays, any other is neutral |
| ReplyParsing.UnclosedFence | ml/synthetic_data/persona_inference.py:155-159 | a fence that is never closed still goes, and all lines after it stay |
| ReplyParsing.UnfencedStays | ml/synthetic_data/persona_inference.py:154 | text without a fence is only stripped |
| ReplyParsing.ClampedValues | ml/synthetic_data/persona_inference.py:179 | out-of-range and infinite likelihoods are pulled in; not-a-number becomes 1 |
| ReplyParsing.ScoreBounds | ml/synthetic_data/conversion_scorer.py:47-57 | the score is in [0, 1], within 0.08 of the likelihood, on the sentiment's side of it, monotone and non-expanding |
| ReplyParsing.NudgesExactly | ml/synthetic_data/conversion_scorer.py:47-57 | away from the ends the nudge is exactly 0.05 up or 0.08 down |
| ReplyParsing.AcceptedReplyScores | ml/synthetic_data/conversion_scorer.py:38-57 | so every accepted reply has a score in [0, 1] near its likelihood |
| Inference.FirstResultForever | ml/synthetic_data/claude_client.py:98-130 | over every run the first result stored for a key is every later answer |
| Inference.RepliesPerKey | ml/synthetic_data/claude_client.py:98-130 | over every run, failing writes included, the usable replies for a key are exactly one if its file is there plus one for each write that left no file |
| Inference.OneReplyPerKey | ml/synthetic_data/claude_client.py:98-130 | so there is at most one while every write leaves its file |
| Inference.CutFileRaisesForever | ml/synthetic_data/claude_client.py:102-104 | once a file was cut short every later request for its key raises and calls nothing |
| Inference.CompleteEffect | ml/synthetic_data/claude_client.py:38-48 | a hit makes no call, a miss one to three; whatever is returned is on the disk, and no other file is touched |
| Inference.SameContentSameScore | ml/synthetic_data/persona_inference.py:110-144 | in every run asks that differ only in stimulus id and creation time get the same response and score, a probability |
| Inference.KeyTellsAsk | ml/synthetic_data/claude_client.py:173-192 | two asks share a key exactly when system text, effective model, temperature and prompt are the same |
| Inference.NewAskIsAnsweredItself | ml/synthetic_data/persona_inference.py:116-133 | in every run an ask unlike all before it is answered by its own API calls, and by no reply to another |
| Inference.KeySays | ml/synthetic_data/claude_client.py:156-171 | what the API is asked, argument by argument |
| Inference.MissInFull | ml/synthetic_data/claude_client.py:106-130 | the calls of a miss, what it returns and what it leaves on the disk |
| StimulusPrompt.PromptTellsContent | ml/synthetic_data/stimulus_schema.py:110-159 | while no shown text has a newline, two prompts are equal exactly when they show the same: kind, texts and optional parts |
| StimulusPrompt.PricePrompt | ml/synthetic_data/stimulus_schema.py:132-140 | the prompt of a price change, word for word |
| StimulusPrompt.AdPrompt | ml/synthetic_data/stimulus_schema.py:119-130 | the prompt of an ad, line for line |
| StimulusPrompt.PromoPrompt | ml/synthetic_data/stimulus_schema.py:142-159 | the prompt of an offer, line for line |
| StimulusPrompt.AdsCollide | ml/synthetic_data/stimulus_schema.py:119-130 | for all texts that fit the validators two different valid ads have the same prompt, one forging the product line of the other with a newline |
| StimulusPrompt.FormatStimulusPrompt | ml/synthetic_data/stimulus_schema.py:110-159 | the appended lines make a prompt that only stimuli showing the same can have |
| Inference.CachedClaudeClient.CompleteMessage | ml/synthetic_data/claude_client.py:73-130 | lookup, bounded retry and store as one step of the memo |

## Left out

Assumptions that several modules share:

- Requests, generated ids, clock readings, replies and store failures are inputs. Generated ids are fresh. One clock is
  shared and never goes back. A statement that raises took no effect.
- Floats are reals; totals are cents, scores and likelihoods ten-thousandths once stored. Floating-point rounding, and
  with it the last digit of a sum, is not modelled.
- The Avro codec inverts, JSON of a payload and SHA-256 do not collide, anonymised ids are numbers.
- Database statements are atomic. Listings order equal times by a fixed rule; unordered queries return any order.
- Kafka's argument-free commit acknowledges everything the last poll returned. Rebalancing is not part of this model.

Contracts stated under a condition:

- Freshness.FreshMeansCurrent: one direction, for runs that keep edits and extractions apart; Freshness.FreshExactly is
  exact over all runs, and Freshness.RaceExactly reads it as the order of steps for one edit and one extraction. That an
  UPDATE carries only columns whose value changed since loading is SQLAlchemy's rule, taken as given.
- Freshness.MarkCatchesAllDrift: for thresholds of zero days or more; Freshness.NegativeThresholdMisses shows why.
- CompetitionRuns.ListingIsPodium: for competitions of a campaign that do not overlap; CompetitionRuns.ListingExactly is
  exact. The foreign key from a variant to its run is taken to hold at the fan-in, so clearing runs during a competition
  is not covered.
- ConsumerLoop.AtMostOnce: for batches whose first message commits or escapes; ConsumerLoop.RepeatsExactly shows that
  this is the exact condition for leaving nothing to be delivered again.
- BehavioralStore.BehavioralConsumer.InsertBehavioralEvent: does not model that a failed statement leaves its transaction
  aborted, which no attempt rolls back, so that an attempt after a failed one can hardly succeed. The runs that can
  happen are among those the theorems cover.
- OrgIsolation.NonInterference: takes error texts to tell rejected replies, broken files and failed writes apart, as the
  code's do; OrgIsolation.NonInterferenceAnyTexts does not. Competitions, extractions and drift checks, which answer no
  org, are not among the requests, and runs are read back by id or listed by segment, their results being RunCache's.
- RateLimiter.AdmittedExactly: for a limit of at least one, or no fault in setting the expiry.

Not modelled:

- HTTP, tokens and API keys, roles, audit rows, metrics, logging, connections, retries' waiting times.
- Post-commit steps of the worker are taken not to fail; the WebSocket and lag sensor are not part of this model.
- Seeding (api/routers/admin.py:268-376): it writes fresh, never trained segments, outside the invariants above.
- run_simulation_pipeline: its unskipped path reads an attribute that the feature matrix does not define.
- Keys and audit rows that the description of `delete_org_data` says are erased: its code does not touch them.
- Stored embeddings outlive their segment, since nothing sets `qdrant_id`; search and vector contents stay abstract.
- Segment names in embeddings: a renamed segment is not stale, and its stored point keeps the old name.
- Reads of TenantStore are queries of the step function, not methods; its variants carry no rank, so they list by creation.
- The status filter of `list_runs`, segment and org caches, `aggregate_stats`, `from_dict`, `to_feature_vector`: they would add easy members.
- `score_batch` maps the score over a list; the cached flag of a stored completion is always the stored False.
- Variant prompts, temperature and `llm_metadata` in competitions, and the JSON text of a definition, are opaque.
