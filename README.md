# arbitrage-hunter: a Dafny model of the detection and position engine

arbitrage-hunter watches the same binary events on two prediction-market
venues, Polymarket and Kalshi. When the yes price on one venue plus the no
price on the other is below 1, it splits a notional $100 between the two
legs so that both payouts are equal. It stores each such opportunity and
opens a multi-day position for it. On later cycles it expires the position,
keeps a task log of every step and adapts its polling interval to the
categories that did well.

This project models that engine and proves properties about it:

- **`Solver`**: the two-direction stake sizing of `calculate_arbitrage`. This includes
  the division by zero it can raise and Python's ties-to-even `round`
  (`Numeric.Round`).
- **`Matcher`**: the matching of `find_arbitrage_opportunities`:
  - name normalisation;
  - the Kalshi lookup table, where the last quote with a name wins;
  - the profit filter;
  - venue relabelling, which includes a finding.
- **`Categorize`**: the keyword classifier `categorize_event`.
- **`Models`**: the document builders of `models.py`.
- **`OpportunityStore`**: the `arbitrage_opportunities` collection as a class.
  It covers expiring stale records, upserting new ones, and the sorted and
  capped query of `get_active_opportunities`, with its profit back-fill.
- **`Positions`**: the position manager as a class:
  - creating a position, state updates, order placement and the monitoring pass;
  - the `$group` performance rebuild;
  - the task log and the recovery and uptime queries.
- **`Agent`**: the coordinating agent as a class:
  - `_fetch_with_retry` with its exponential backoff;
  - storing price snapshots under a unique key;
  - one fetch cycle, detection, monitoring and one `run_once` iteration;
  - the adaptive poll interval and the sleep of the run loop.

Things outside the program's control become parameters:

- **The venues.** Each fetch is `nat -> Attempt<T>`, the outcome of each
  attempt.
- **Randomness.** Each random draw is a function argument:
  - the simulated 10% API failure of an attempt;
  - the 70% order-placement draw of a new position;
  - the `uniform(0.8, 1.2)` resolution factor of a position.
- **The clock.** It is an integer `now`, in seconds.
- **`uuid.uuid4()`.** It is `Ids.IdSource`, one sequence of draws that never
  repeats a value.
- **Sleeping.** `time.sleep` appends its duration to the agent's `waits`.
- **Collections.** A MongoDB collection is a field of its owner: a map keyed
  by the unique index, or a sequence in natural order.

Points where the code's behaviour is easy to misread, all modelled as the
code has them:

- **Retry sleeps.** The retry loop sleeps only between attempts. With the
  defaults that means four sleeps of 1, 2, 4 and 8 seconds, not five up
  to 16 (`Agent.DefaultBackoff`).
- **Quote characters.** `normalize_name` strips only the straight
  quotes `'` and `"`, not curly ones.
- **Duplicate prices.** A duplicate price key makes `store_market_prices`
  report 0 and log nothing, although the free keys are still inserted.
- **Opportunity ids.** Each stored opportunity gets a fresh random
  `opportunity_id`, so the upsert always inserts and never replaces an
  existing record.

One departure is deliberate. The venue labels of a detected opportunity come
from the corrected rule (see "## Findings"). The labels the code as written
picks are `Matcher.MatchOneAsWritten`, and `Matcher.MatchOneAgreement` says
exactly when the two differ.

## Model

| member | source | states |
|---|---|---|
| Numeric.RoundHalfEven | arbitrage.py:68-73 | The integer picked is within 0.5 of its argument, is exact on integers, and is even at an exact half (the ties-to-even rule of `round`). |
| Numeric.Round | arbitrage.py:68-73 | `round(x, n)` lies within half a unit of the n-th decimal place of x. |
| Numeric.RoundedSum | arbitrage.py:68-69 | Two stakes rounded to cents stay within one cent of their exact sum. |
| Numeric.RoundAt | arbitrage.py:68-73 | A value strictly within half a unit of k at the last kept place rounds to exactly k. |
| Text.LowerAppend | arbitrage.py:111 | Lower-casing distributes over concatenation. |
| Text.ContainsExtend | generate_dummy_data.py:62-71 | A substring found in s is still found after text is added on either side. |
| Text.AbsentByChar | generate_dummy_data.py:62-71 | A word containing a character that s lacks is not a substring of s. |
| Text.TrimStartFacts | arbitrage.py:111 | `strip` removes exactly the leading run of whitespace. |
| Text.TrimEndFacts | arbitrage.py:111 | `strip` removes exactly the trailing run of whitespace. |
| Text.Delete | arbitrage.py:111 | `replace(c, "")` leaves no c and keeps the count of every other character. |
| Text.DeleteAppend | arbitrage.py:111 | `replace(c, "")` on a concatenation is the concatenation of the pieces' results, so the kept characters stay in order. |
| Text.DeleteSplits | arbitrage.py:111 | One character in the middle is dropped if it is c and kept in place otherwise. |
| Text.TrimStartAppend | arbitrage.py:111 | When the first part has a non-space character, leading whitespace is removed from it alone. |
| Text.TrimEndAppend | arbitrage.py:111 | When the last part has a non-space character, trailing whitespace is removed from it alone. |
| Text.StripAround | arbitrage.py:111 | `strip` keeps whole whatever lies between two parts that each have a non-space character. |
| Text.Prefix | position_manager.py:89 | `s[:n]` is a prefix of s: s itself when |s| ≤ n, and exactly its first n characters otherwise. |
| Categorize.AnyInSome | generate_dummy_data.py:62 | `any(word in s for word in words)` holds iff some word of the list occurs in s. |
| Categorize.CategorizeChain | generate_dummy_data.py:59-72 | The classifier is the if-chain Politics, Sports, Crypto, Economic, Tech, else Other, over the lower-cased name. |
| Categorize.CategorizeByPriority | generate_dummy_data.py:59-72 | The category is t iff t has a keyword in the name and no earlier category does (Other iff no keyword at all). |
| Categorize.CategorizeIgnoresCase | generate_dummy_data.py:61 | Upper-case letters never change the category. |
| Categorize.CategorizeExtend | generate_dummy_data.py:59-72 | Adding text to a name never moves it to a later category. |
| Categorize.KeywordAnywhere | generate_dummy_data.py:62-71 | A name containing a keyword of t, even inside a longer word, is classified as t or as an earlier category. |
| Categorize.ElectionWins | generate_dummy_data.py:62-63 | A name containing "election" is Politics, whatever else it mentions. |
| Categorize.FedExample | generate_dummy_data.py:68-69 | The rate-cut question containing "Fed" is Economic. |
| Categorize.BitcoinExample | generate_dummy_data.py:66-67 | The Bitcoin price question is Crypto. |
| Categorize.KeywordsAreLower | position_manager.py:15-27 | Every keyword of the fallback classifier is lower case, so matching it against the lower-cased name loses nothing. |
| Models.ChooseId | models.py:27-28 | `given or uuid4()`: a missing or empty id is replaced by the draw, otherwise it is kept. |
| Models.CreateMarketPriceDoc | models.py:7-18 | The snapshot carries its inputs and the key `platform_market_outcome_<second>`. |
| Models.CreateArbitrageOpportunityDoc | models.py:21-39 | The record carries its inputs, two independently chosen ids, status active and the detection time, and no profit or expiration. |
| Models.CreatePositionDoc | models.py:42-67 | The position carries its inputs and two chosen ids, starts watching with zero days held and no resolution, created and checked now. |
| Models.CreateTaskLogDoc | models.py:70-81 | The entry carries action, status, details, error, two chosen ids and the current time. |
| Models.SuccessRate | models.py:93 | It is profitable/found × 100 for a non-empty category, within [0, 100] when profitable ≤ found, and 0 for an empty one. |
| Models.CreateMarketPerformanceDoc | models.py:84-95 | The document carries its counts and average, with success rate `SuccessRate` and the current time. |
| Models.OpportunityIdsCoincide | models.py:27-28 | `_id` equals `opportunity_id` iff an id was supplied or the two uuid draws happen to agree. |
| Models.YesNoKeysDiffer | models.py:11 | The yes and no snapshots of one market in one second never share a key. |
| Models.SameSecondCollides | models.py:11 | Two snapshots of the same market and outcome in the same second collide on the key, whatever their prices and names. |
| Solver.SizeDirection | arbitrage.py:28-58 | One direction fails iff it divides by zero. It is empty iff yes + no ≥ 1. Otherwise stakes are total·yes/c and total·no/c, with payout and profit from the yes leg. |
| Solver.SizingFacts | arbitrage.py:32-42 | When c = yes + no > 0, the stakes sum to the investment, both legs pay total/c, and the profit percentage is (1/c − 1)·100. |
| Solver.CalculateArbitrage | arbitrage.py:8-91 | Fails iff either direction divides by zero. Returns None iff neither is a hedge. Otherwise it returns the direction that strictly wins (direction 2 on a tie) with its prices, the payout N/c and profit N/c − N rounded to cents, and the profit percentage (1/c − 1)·100 rounded to four places. |
| Solver.RoundedStakes | arbitrage.py:68-69 | The two rounded stakes differ from their exact sum by at most one cent. |
| Solver.PctOrder | arbitrage.py:62 | For positive combined prices, the higher percentage belongs to the cheaper hedge, and conversely. |
| Solver.PctPositive | arbitrage.py:32-42 | Every hedge with combined price in (0, 1) returns a strictly positive percentage. |
| Solver.ChoiceByCombinedPrice | arbitrage.py:62-89 | Direction 1 is taken iff it is a hedge and is strictly cheaper than direction 2, or direction 2 is no hedge. |
| Solver.NoneIffNoHedge | arbitrage.py:32-91 | With prices in (0, 1] the call never raises, and returns None iff neither direction sums below 1. |
| Solver.ZeroYesPriceFails | arbitrage.py:38-40 | A zero yes price on venue A, against a no price in (0, 1) on venue B, raises a division error instead of returning. |
| Solver.SetupExample | arbitrage.py:8-91 | Quotes 0.45/0.52 against 0.48/0.55 give stakes 46.39 and 53.61, payout 103.09, profit 3.09 and 3.0928%. |
| Solver.SecondDirectionExample | arbitrage.py:47-89 | When only the second direction hedges, it is returned with Kalshi's yes price and Polymarket's no price. |
| Matcher.NormalizeName | arbitrage.py:109-111 | The normalised name has no quote characters and no upper-case letters, and keeps every other character of the lower-cased, stripped name. |
| Matcher.NormalizeIgnoresCase | arbitrage.py:109-111 | Names that differ only in case normalise alike. |
| Matcher.LowerHasNonSpace | arbitrage.py:111 | Lower-casing keeps a non-space character non-space. |
| Matcher.NormalizeIgnoresQuote | arbitrage.py:109-111 | A straight quote between two parts that each have a non-space character does not change the normalised name. |
| Matcher.DeleteQuoteBetween | arbitrage.py:111 | Removing both quote kinds drops a quote between two parts and keeps the parts' remaining characters in order. |
| Matcher.IndexLastWins | arbitrage.py:113 | A dict comprehension maps each key to the value of its last pair. |
| Matcher.LookupLastWins | arbitrage.py:113 | A name is in the Kalshi lookup iff some Kalshi quote has it, and it maps to the last such quote. |
| Matcher.Relabel | arbitrage.py:136-152 | The yes-leg venue is Polymarket iff the solver took direction 1, and the two labels differ. |
| Matcher.RelabelAsWritten | arbitrage.py:137-152 | The written check labels Polymarket as the yes leg iff the allocation's yes price is within 0.001 of Polymarket's. |
| Matcher.RelabelNamesQuotedVenues | arbitrage.py:136-152 | The corrected labels name the venues whose yes and no quotes the allocation was sized with. |
| Matcher.RelabelAgreement | arbitrage.py:137-152 | The written and corrected labels agree iff direction 1 was taken or the two yes prices are at least 0.001 apart. |
| Matcher.RelabelMislabels | arbitrage.py:137-152 | For Polymarket 0.5005/0.4995 against Kalshi 0.4999/0.5001, the written check labels a direction-2 hedge as direction 1. |
| Matcher.MatchOne | arbitrage.py:117-155 | An unmatched record yields nothing. The record fails iff it is matched and the solver fails. It yields an opportunity whenever it is matched and the solver returns a positive profit percentage. An opportunity has positive profit percentage, the record's original name, and exactly the venue pair `Relabel` gives: two distinct venues, Polymarket as the yes leg iff direction 1 was chosen. |
| Matcher.MatchOneAsWritten | arbitrage.py:117-155 | With the written 0.001 label test: fails iff matched and the solver fails, and yields an opportunity iff matched with a positive profit percentage, labelled by `RelabelAsWritten`. |
| Matcher.MatchOneAgreement | arbitrage.py:117-155 | The written and corrected matching differ exactly on a profitable direction-2 opportunity whose two yes prices are within 0.001. |
| Matcher.Collect | arbitrage.py:116-157 | The loop fails iff some record fails, and otherwise finds at most one opportunity per record. |
| Matcher.Picked | arbitrage.py:116-157 | The indices of the records that yield an opportunity, strictly increasing and exactly those records. |
| Matcher.CollectFollowsInput | arbitrage.py:116-157 | A successful loop returns exactly one opportunity per yielding record, in input order. |
| Matcher.MatchesFollowInput | arbitrage.py:94-157 | Matching fails iff some Polymarket record fails, and otherwise returns each record's opportunity in Polymarket order. |
| Matcher.MatchesSound | arbitrage.py:130-155 | Every opportunity found is profitable and carries the name of some Polymarket record. |
| Matcher.FindArbitrageOpportunities | arbitrage.py:94-157 | The loop computes `Matches` over the Kalshi lookup. |
| OpportunityStore.ExpireStaleFacts | arbitrage.py:164-169 | Expiry keeps every key, marks exactly the active records older than five minutes expired, and changes nothing else. |
| OpportunityStore.ExpireStaleIdempotent | arbitrage.py:164-169 | Expiring twice at the same time is expiring once. |
| OpportunityStore.UpsertFacts | arbitrage.py:185-189 | An upsert by `opportunity_id` puts the document under its id and leaves every other record alone. |
| OpportunityStore.UpsertAllInserts | arbitrage.py:172-189 | Upserting documents with fresh distinct ids adds exactly their ids, keeps old records and stores each document under its id. |
| OpportunityStore.NewDocsFresh | arbitrage.py:173-182 | The new documents get the draws `gen(base + 2j + 1)` as ids, distinct and absent from the store. |
| OpportunityStore.StoreInsertsAll | arbitrage.py:160-189 | After a store, the keys are the old keys plus one new id per opportunity, old records are their expired versions, and each new document sits under its id. |
| OpportunityStore.StoreKeysDrawn | arbitrage.py:172-189 | Every id the store adds is one of the draws it made. |
| OpportunityStore.StoreKeepsIssued | arbitrage.py:160-189 | The store keeps every record under its own `opportunity_id`, and every key stays an id drawn so far. |
| OpportunityStore.BackfillFormula | arbitrage.py:209-214 | The profit back-fill is 0 for a non-positive percentage, and otherwise within 0.005 of total·p/(1 + p). |
| OpportunityStore.BackfillProfit | arbitrage.py:208-214 | A stored non-zero profit is kept. Otherwise the profit is back-filled: 0 when the percentage is at most 0, else within 0.005 of total·q/(1+q), where q is the percentage over 100. |
| OpportunityStore.BackfillIsPayoutShare | arbitrage.py:209-212 | For a hedge at combined price c in (0, 1), the back-fill of its percentage is the solver's profit total/c − total multiplied by c, so it understates that profit. |
| OpportunityStore.Cap | arbitrage.py:200 | Mongo's `limit`: 0 means no limit, and a negative limit acts as its absolute value. |
| OpportunityStore.OpportunityCollection.constructor | arbitrage.py:192-194 | The collection over the given records and id source. |
| OpportunityStore.OpportunityCollection.StoreArbitrageOpportunities | arbitrage.py:160-189 | Expire stale records, then upsert one new document per opportunity, with exactly two uuid draws each. |
| OpportunityStore.OpportunityCollection.InsertAll | arbitrage.py:172-189 | The loop upserts the new documents in order. |
| OpportunityStore.OpportunityCollection.BuildDoc | arbitrage.py:173-182 | One document, built with two fresh draws. |
| OpportunityStore.OpportunityCollection.Query | arbitrage.py:197-200 | The result answers the query: distinct current records, sorted by profit percentage descending, capped by the limit, and no omitted current record beats one returned. |
| OpportunityStore.OpportunityCollection.GetActiveOpportunities | arbitrage.py:192-224 | The query's records with profit back-filled and a missing expiration set thirty days ahead. |
| OpportunityStore.SelectStep | arbitrage.py:200 | Taking a best remaining record keeps the selection sorted, distinct and dominating. |
| OpportunityStore.SelectDone | arbitrage.py:200 | A selection that has reached the cap answers the query. |
| OpportunityStore.MaxExists | arbitrage.py:200 | Every non-empty set of records has one with the highest profit percentage. |
| Positions.Find | position_manager.py:184-186 | `find_one` by id returns the first position with that id, and None iff no position has it. |
| Positions.FindUnique | position_manager.py:184 | Under the unique index, a position's own id finds that position. |
| Positions.ExpirationFor | position_manager.py:67-73 | The given expiration is kept even if it is past, and otherwise is thirty days from now. |
| Positions.NewPositionFacts | position_manager.py:61-91 | A new position is watching and unresolved, has the category of its event name, targets the opportunity's profit (0 if absent) and takes the opportunity's expiration or thirty days. |
| Positions.Updated | position_manager.py:128-135 | The state and check time are set. A given profit sets profit and resolution time; without one they stay. Nothing else changes. |
| Positions.SetState | position_manager.py:137-140 | `update_one` changes the first position with the id and nothing when none has it. |
| Positions.MonitorOne | position_manager.py:152-175 | Terminal positions are untouched. An open position past its expiry expires with a simulated profit. Any other open position only gets its check time updated. |
| Positions.MonitorAll | position_manager.py:145-175 | The pass treats every position by `MonitorOne`. |
| Positions.CountExpiring | position_manager.py:151-168 | The number of open positions past expiry, 0 iff none is. |
| Positions.MonitorExpiresExactly | position_manager.py:155-169 | The pass changes a position's state iff it is open and past expiry. It then resolves it with a profit between 0.8 and 1.2 times the target. |
| Positions.MonitorKeepsTerminal | position_manager.py:147-149 | Expired, profitable and loss positions are never touched, and no position changes id. |
| Positions.MonitorIdempotent | position_manager.py:145-180 | A second pass at the same time finds nothing to expire and changes nothing. |
| Positions.Found | position_manager.py:199-201 | A category's `$sum: 1` counts at most every position. |
| Positions.FoundNone | position_manager.py:199-201 | A category's count is 0 iff no position has that category. |
| Positions.FoundPartition | position_manager.py:199-201 | The six category counts add up to the number of positions. |
| Positions.ProfitableCount | position_manager.py:202-204 | The profitable count never exceeds the category's count. |
| Positions.AvgTarget | position_manager.py:205 | The average times the count is the sum of the targets. |
| Positions.PerformanceOf | position_manager.py:211-218 | A category's document has its count, profitable count, average and a success rate in [0, 100]. |
| Positions.RebuiltFacts | position_manager.py:209-224 | After the rebuild every present category has a fresh document, every other category keeps its record, and nothing else appears. |
| Positions.CountRecoveries | position_manager.py:252-254 | The recovery count is at most the log's length. |
| Positions.CountRecoveriesNone | position_manager.py:252-254 | The count is 0 iff no entry is a successful `recover`. |
| Positions.CountRecoveriesAppend | position_manager.py:252-254 | An appended entry adds one iff it is a successful `recover`. |
| Positions.EarliestTimestamp | position_manager.py:258 | The first entry by timestamp: no entry is earlier and some entry has it. |
| Positions.UptimeOf | position_manager.py:256-274 | All zeros for an empty log. Otherwise, whole days and hours (under 24) since the first entry, and the position count. |
| Positions.PositionManager.constructor | position_manager.py:33-35 | The manager over the given collections and id source. |
| Positions.PositionManager.LogTask | position_manager.py:235-241 | One entry built from two draws, appended iff the log accepts inserts. |
| Positions.PositionManager.CreatePositionFromOpportunity | position_manager.py:61-91 | Appends the new position with a previously unused id, logs the creation, returns the id and leaves performance alone. |
| Positions.PositionManager.UpdatePositionState | position_manager.py:125-143 | Sets the state through `SetState` and logs the update. |
| Positions.PositionManager.SimulateOrderPlacement | position_manager.py:182-194 | Places iff the position exists and is watching. It then becomes entered with two log entries, and otherwise nothing changes. |
| Positions.PositionManager.MonitorPositions | position_manager.py:145-180 | The positions become `MonitorAll`. Returns how many expired. Logs one entry per expiry, plus a summary when any expired. |
| Positions.PositionManager.MonitorPass | position_manager.py:151-175 | The loop over all positions, with one log entry per expiry. |
| Positions.PositionManager.MonitorAt | position_manager.py:152-175 | One loop turn, on one position. |
| Positions.PositionManager.CalculateHistoricalPerformance | position_manager.py:196-224 | The performance view becomes `Rebuilt` over the positions. |
| Agent.EffectiveRetries | agent.py:59 | `max_retries or 5`: None and 0 give 5, any other value is kept. |
| Agent.RetryBounds | agent.py:62-89 | At most `max_retries` attempts, at most one fetch per attempt, and at most one sleep per attempt but the last. |
| Agent.RetrySleepsBackOff | agent.py:73-81 | Every sleep is `delay·2^a` for an attempt a before the last, the j-th sleep from attempt j or later. |
| Agent.RetryAllFail | agent.py:73-89 | When every attempt raises, the call returns None after n log entries and n − 1 sleeps: entries 0 … n − 2 are retries and the last is the final failure, reporting n attempts. |
| Agent.RetryAllFailWaits | agent.py:73-81 | When every attempt raises, the sleeps are exactly delay·2^k … delay·2^(n−2). |
| Agent.DefaultBackoff | agent.py:57-89 | With the defaults, a call whose attempts all raise sleeps 1, 2, 4 and 8 seconds. |
| Agent.RetryResult | agent.py:62-89 | The result is the value of the first attempt that returns one, and None iff no attempt does. |
| Agent.LastAttemptNotInjected | agent.py:65 | The simulated failure never hits the last attempt, so a fetch that succeeds there succeeds. |
| Agent.EntriesAt | models.py:70-81 | The i-th of a run of `log_task` calls builds its entry from draws base + 2i and base + 2i + 1. |
| Agent.PriceDocs | agent.py:94-114 | Two snapshots per record, yes then no, in input order. |
| Agent.PriceDocuments | agent.py:94-114 | The document loop builds `PriceDocs`. |
| Agent.InsertUnordered | agent.py:118 | `insert_many(ordered=False)` adds exactly the free keys and never overwrites a stored one. |
| Agent.InsertWithoutCollision | agent.py:116-122 | Without a collision, every document of the batch is stored under its own key. |
| Agent.PriceKeyInjective | models.py:11 | For one platform and second, the key determines market and outcome. |
| Agent.DistinctMarketsDoNotCollide | agent.py:116-122 | Records with distinct market ids, none already stored this second, never hit the unique index. |
| Agent.BestRate | agent.py:276-277 | The best success rate over a non-empty set of stored categories: no category's rate exceeds it and some category attains it. The empty case never reaches it; the interval is then the base. |
| Agent.IntervalNonIncreasing | agent.py:279-285 | For a base of at least 30 seconds, a higher best rate never lengthens the interval. |
| Agent.DefaultIntervals | agent.py:268-285 | With a 60 s base the interval is 60 with no data, and otherwise 30, 60 or 120 by the thresholds 50 and 30. |
| Agent.SmallBaseNotMonotone | agent.py:280-285 | With a base under 30 s, the best case waits longer than the middle case. |
| Agent.SleepTime | agent.py:332-333 | The sleep is never negative, and equals the interval minus the elapsed time when that is positive. |
| Agent.FetchLogs | agent.py:78-85 | One `log_task` call per retry or failure event. |
| Agent.FirstNew | agent.py:204 | `opportunities[:10]`: at most ten, a prefix of the list. |
| Agent.OpenedFacts | agent.py:204-214 | Each opened position belongs to its opportunity's event and venues and targets its profit. It expires in thirty days and is entered iff its orders were placed. |
| Agent.OpenedFirstPrefix | agent.py:204-214 | The openings for the first n entries depend only on those entries. |
| Agent.ArbitrageAgent.constructor | agent.py:17-28 | The agent over the existing collections, then `_resume_from_state`: one recovery entry and a performance rebuild. |
| Agent.ArbitrageAgent.ResumeFromState | agent.py:30-46 | Logs the restart, so the recovery count grows by one exactly when the log accepts inserts, and rebuilds performance. |
| Agent.ArbitrageAgent.FetchWithRetry | agent.py:57-89 | Result, sleeps and log entries are exactly those of `Retry` with delay 1. Nothing else changes. |
| Agent.ArbitrageAgent.AttemptStep | agent.py:62-87 | One attempt: either the call ends as `Retry` says or the loop goes on. |
| Agent.ArbitrageAgent.OneAttempt | agent.py:63-87 | The attempt's outcome, its sleep and its log entry. |
| Agent.ArbitrageAgent.StoreMarketPrices | agent.py:91-133 | Inserts the snapshots unordered. A duplicate key gives 0 and no entry, and otherwise the count is logged and returned. |
| Agent.ArbitrageAgent.StoreDocuments | agent.py:116-133 | The insert and the log entry of a batch. |
| Agent.ArbitrageAgent.InsertMany | agent.py:118 | The collection becomes `InsertUnordered` and the duplicate flag is `Collision`. |
| Agent.ArbitrageAgent.FetchAndStore | agent.py:164-173 | One platform: fetch with the default retries, then store a non-empty result. An empty or failed fetch yields []. |
| Agent.ArbitrageAgent.FetchAndStorePrices | agent.py:135-186 | Logs the start, then handles Polymarket and then Kalshi. States the lists, the sleeps, the stored snapshots and the exact log. |
| Agent.ArbitrageAgent.DetectArbitrage | agent.py:188-231 | A division failure or an empty match logs two entries and changes nothing else. Otherwise it stores all, opens the first ten, logs the summary and rebuilds performance. |
| Agent.ArbitrageAgent.ReportDetection | agent.py:194-231 | Everything `detect_arbitrage` does once the matching result is known. |
| Agent.ArbitrageAgent.ReportQuiet | agent.py:223-231 | The start entry and the failure or "none found" entry, and nothing else. |
| Agent.ArbitrageAgent.StoreAndOpen | agent.py:196-222 | Stores every opportunity, opens the first ten, logs the summary and rebuilds performance. |
| Agent.ArbitrageAgent.StoreThenOpen | agent.py:200-216 | Stores every opportunity, then opens the first ten. |
| Agent.ArbitrageAgent.Summarize | agent.py:218-222 | The summary entry, then the performance rebuild. |
| Agent.ArbitrageAgent.OpenPosition | agent.py:205-214 | Creates the position and places its orders when the draw says so. Placement always succeeds on a fresh position. |
| Agent.ArbitrageAgent.OpenPositions | agent.py:203-216 | Opens one position per opportunity of the batch, in order. |
| Agent.ArbitrageAgent.OpenNext | agent.py:204-216 | One loop turn: the positions opened so far gain the next one. |
| Agent.ArbitrageAgent.MonitorPositions | agent.py:254-261 | Runs the manager's pass, and rebuilds performance iff something expired. The log grows by one entry per expiry plus the summary, which is the last entry when anything expired. |
| Agent.ArbitrageAgent.RunOnce | agent.py:233-252 | Fetches and stores both platforms, detects only when both lists are non-empty, and always monitors. The records, the positions and the performance view are stated exactly: the view is rebuilt after a detection that found something, and again after a monitoring pass that expired anything (`MonitoredView`). |
| Agent.ArbitrageAgent.DetectThenMonitor | agent.py:246-252 | Detection when both lists are non-empty, then monitoring. States the records, the positions and the performance view: rebuilt over the opened positions after a successful detection, then `MonitoredView` of that over the monitoring pass. |
| Agent.ArbitrageAgent.DetectIfPriced | agent.py:246-249 | Skipped unless both lists are non-empty, leaving the log as it was. Without a find it adds no opportunity and no position and keeps the performance view (it still logs). With one, the records are stored, the positions opened and the view rebuilt over them. |

## Left out

- Dummy mode (`use_dummy_data`, `generate_dummy_data.py` beyond `categorize_event`) is demo data generation, not the engine.
- Store read and write failures other than the duplicate key, and the failure entries they log:
  - in `store_market_prices`, the non-duplicate error path (agent.py:127-132);
  - in the agent's `monitor_positions` (agent.py:262-266);
  - in `_resume_from_state` (agent.py:48-51);
  - in `create_position_from_opportunity` (position_manager.py:92-94);
  - in `detect_arbitrage`, other exceptions (agent.py:226-231).

  The modelled store never fails. The one exception the core itself raises is the solver's division by zero, and it is modelled.
- Failed `log_task` inserts are modelled as a flag, `logWritable`, and the warning they print is not.
- The `run` loop itself is left out: its `while self.running`, KeyboardInterrupt, the `agent_loop` failure entry and the `agent_shutdown` entry. They concern process control and signals. One iteration is `RunOnce`, and its sleep is `SleepTime`.
- The 0.1 s pause before order placement is left out. It is a fixed sleep with no effect on state.
- Printing and `traceback.print_exc` are console output only.
- `get_active_positions`, `get_recent_tasks`, `get_market_performance` and `_setup_collections` are read accessors for the dashboard and index setup. `_resume_from_state` calls the first two only to print their results.
- The venue clients (`polymarket.py`, `kalshi.py`), `config.py` and the dashboards are not part of this model. The fetched quote lists are parameters.
- Floating point: prices and stakes are exact reals, so float rounding error in the sums and divisions is not modelled. Python's `round` is modelled on exact values.
- `str.lower` is modelled for ASCII letters only, and `isspace` for the code points Python treats as whitespace.
- Dates are integer seconds, and a naive datetime is assumed throughout. String expiration dates parsed by `fromisoformat`, time zones and `.isoformat()` rendering are not modelled.
- Agent.ArbitrageAgent.RunOnce: states the task log only as an extension of the old log (its records, positions and performance view are exact).
- Agent.ArbitrageAgent.DetectThenMonitor: states the task log only as an extension of the old log; `DetectArbitrage` and `MonitorPositions` give the exact entries.
- Agent.ArbitrageAgent.DetectIfPriced: states the task log exactly only when detection is skipped, and as an extension otherwise; `DetectArbitrage`, which it calls when both lists are non-empty, gives the exact entries.
- Agent.ArbitrageAgent.MonitorPositions: states the task log as an extension of the old log, with its length and, when anything expired, its last entry, rather than every entry.
- Positions.PositionManager.MonitorPositions: states the task log as an extension of the old log, with its length and, when anything expired, its summary entry, rather than every entry.
- Matcher.MatchOne: names the venues with the corrected rule, not the written 0.001 test. The detection pipeline built on it (`Matches`, `FindArbitrageOpportunities`, `Agent.ArbitrageAgent.DetectArbitrage`, `RunOnce`) carries those labels. Where `Matcher.MatchOneAgreement`'s condition holds, the code stores the other labelling, which `Matcher.MatchOneAsWritten` gives.
- Agent.ArbitrageAgent.OpenPosition: states the task log only as an extension of the old log. The entries of creation and placement are stated by `Positions.PositionManager.CreatePositionFromOpportunity` and `SimulateOrderPlacement`.
- Agent.ArbitrageAgent.OpenPositions: states the task log only as an extension of the old log.
- Agent.ArbitrageAgent.DetectArbitrage: the matching result `found` and the openings' entries `openLog` are ghost outputs that name parts of the new state. They are not returned by the source.

## Findings

| source | as written | input that shows it | evidently intended | confidence | as-written member | corrected member |
|---|---|---|---|---|---|---|
| arbitrage.py:137-152 | Picks the venue labels by testing whether the returned yes price is within 0.001 of Polymarket's yes price. | Polymarket yes/no 0.5005/0.4995, Kalshi 0.4999/0.5001. Only Kalshi-yes plus Polymarket-no is a hedge, but the yes prices are 0.0006 apart, so the legs are labelled Polymarket-yes and Kalshi-no. Kalshi's no price is 0.5001, not the 0.4995 the stakes were sized with. | Label the venues by the direction the solver actually chose. | not executed | Matcher.RelabelAsWritten, Matcher.RelabelMislabels, Matcher.MatchOneAsWritten | Matcher.Relabel, Matcher.RelabelNamesQuotedVenues, Matcher.MatchOne |
