# Cardio-Health core, modelled in Dafny

Cardio-Health is a Flask service that scores cardiovascular risk with a
pre-trained classifier. It also has browser pages that keep the user's
predictions in local storage. The classifier itself is glue. The logic around
it is what this project models and proves. That logic has these parts:

- **Cache** (`cache.py`): a TTL cache with lazy expiry, hit and miss counters,
  a sweep for expired entries, and three key schemes (`pred_`, `stats_` and
  `history_`). The `history_` keys can be invalidated by prefix.
- **RateLimiting** (`rate_limiter.py`): a sliding-window rate limiter with one
  request list per client, pruned to the last hour on every check, with a
  per-minute and a per-hour cap.
- **Validators** (`validators.py`): the ordered chain of presence, type,
  range and option checks on a prediction request, and the batch variant.
  The batch variant adds size bounds and joins the first three record errors.
- **Utils** (`utils.py`):
  - the age conversion between years and days, using Python's
    round-half-to-even;
  - the risk tiers and their colours;
  - the BMI bands;
  - the pagination arithmetic of `list_response`;
  - the error body of `ResponseFormatter.error`;
  - the health status.
- **Models** (`models.py`): the field mapping of `PredictionRecord` and its
  `to_dict`, and the `StatisticsRecord` accumulator with its partition
  invariants.
- **App** (`app.py`, the first set of routes): the in-memory prediction
  service. It covers the order of the early exits of `/api/predict`, the
  lookup by id, the batch partition into `results` and `failed`, the status
  summary with the ten most recent records, and `clear_history`.
- **HistoryPage** (`app.py`): the history endpoint. The records are sorted
  newest first by a stable sort, sliced with Python's slice semantics, and
  the limit and offset are clamped.
- **Errors** (`errors.py`): the exception taxonomy with its fixed status and
  code per class, the error envelope, `handle_errors`, and the registered
  handlers.
- **PredictPage** (`static/predict.js`):
  - the form checks;
  - the de-duplicated, most-recent-first list of at most 100 stored
    predictions;
  - the list of at most 50 saved predictions;
  - the risk class;
  - the recommendation lines.
- **ResultsPage** (`static/results.js`):
  - the statistics cards;
  - the row colour;
  - the table with its "Load more" paging;
  - deleting an entry and clearing the history.
- **ScriptUtils** (`static/script.js`): the browser's age and risk helpers.
  Their `Math.round` rounds a half upward, where the server rounds it to even.

**Helper modules.**

- **Basics** holds `Option`, `Min`/`Max`, percentages, the decimal rendering
  of integers and `str.join`.
- **Json** holds the request `Value` with Python's truthiness and numeric
  equality (`True == 1`, `1.0 in (1, 2)`), and the `in` operator.

**Conventions.**

- Time is an integer number of microseconds, passed in as a parameter.
- Each TTL is a whole number of seconds.
- Python's `round` and JavaScript's `Math.round` are written out on exact
  rationals: 365.25 is 1461/4.
- The classifier, the id generator, the clock and the random suffix are
  parameters.

## Model

| member | source | states |
|---|---|---|
| Cache.CacheManager.constructor | cache.py:16-21 | A new cache is empty, has both counters at zero, and has the given default TTL. |
| Cache.CacheManager.Set | cache.py:23-34 | The key maps to `(value, now, ttl)`, with the default TTL when none is given; any older entry is replaced; no other key and no counter changes. |
| Cache.CacheManager.Get | cache.py:36-55 | An absent key is a miss and changes nothing else. An entry older than its TTL is a miss, and exactly that entry is deleted. Otherwise it is a hit that returns the stored value and leaves the map as it was. An age equal to the TTL is still a hit. |
| Cache.CacheManager.Delete | cache.py:57-63 | Returns true exactly when the key was present; only that key is removed. |
| Cache.CacheManager.Clear | cache.py:65-69 | The map becomes empty; the hit and miss counters are kept. |
| Cache.CacheManager.KeysWhere | cache.py:74-79 | The collecting loop lists every selected key, each once. |
| Cache.CacheManager.DeleteAll | cache.py:81-82 | Deleting the listed keys in turn removes exactly those keys. |
| Cache.CacheManager.CleanupExpired | cache.py:71-87 | Removes exactly the entries that have expired at `now`, keeps every other entry, and returns how many went. |
| Cache.CacheManager.DeletePrefixed | cache.py:174-179 | Removes exactly the entries whose keys start with the prefix, keeps every other entry, and returns how many went. |
| Cache.CacheManager.Stats | cache.py:89-101 | `size` is the number of entries and `total_requests` is hits plus misses. The hit rate is 0 before any request, lies between 0 and 100, and is 100 exactly when there were requests and no miss. |
| Cache.ExpiredKeys | cache.py:71-79 | Exactly the keys whose entries are older than their TTL. |
| Cache.Expired | cache.py:44-46 | An entry is expired when its age at `now` exceeds its TTL, strictly; `Cache.ExpiredKeys` and `Cache.CacheManager.CleanupExpired` state what the cache does with that test. |
| Cache.PrefixedKeys | cache.py:174-176 | Exactly the keys that start with the prefix. |
| Basics.DistinctCard | cache.py:81-85 | A list of distinct keys is as long as its set, so the count returned is the number of keys removed. |
| Cache.Render | cache.py:113 | Each input is rendered with `str`, in order. |
| Cache.JoinedNaturalsInjective | cache.py:113 | Two equally long lists of non-negative integers that give the same `-`-joined text are equal. |
| Cache.KeyTextInjective | cache.py:111-113 | Distinct non-negative prediction inputs give distinct texts to hash. |
| Cache.PredictionKey | cache.py:111-114 | A prediction key starts with `pred_`. |
| Cache.StatsKey | cache.py:139 | A statistics key is `stats_` followed by the statistics type. |
| Cache.HistoryKey | cache.py:160 | A history key starts with `history_`. |
| Cache.HistoryKeyInjective | cache.py:160 | Distinct `(limit, offset)` pairs get distinct history keys. |
| Cache.KeySchemesDisjoint | cache.py:111-160 | No prediction or statistics key starts with `history_`, and no history key starts with `stats_`. |
| Cache.NewPredictionCache | cache.py:105-109 | The prediction cache starts empty with a TTL of 3600 s. |
| Cache.NewStatisticsCache | cache.py:131-135 | The statistics cache starts empty with a TTL of 600 s. |
| Cache.NewHistoryCache | cache.py:152-156 | The history cache starts empty with a TTL of 1800 s. |
| Cache.CachePrediction | cache.py:116-124 | Stores the wrapper with the inputs and the result under the prediction key, with the given TTL or 3600 s when none is given, and returns the key. |
| Cache.GetCachedPrediction | cache.py:126-129 | Returns the live wrapper under the prediction key, or nothing; this counts one hit or one miss. An expired entry under that key is deleted, and every other entry stays. |
| Cache.CacheStatistics | cache.py:137-145 | Stores the wrapper under `stats_<type>`, with the given TTL or 600 s when none is given, and returns the key. |
| Cache.GetCachedStatistics | cache.py:147-150 | Returns the live wrapper under `stats_<type>`, or nothing, counting a hit or a miss. An expired entry under that key is deleted, and every other entry stays. |
| Cache.CacheHistory | cache.py:158-167 | Stores the wrapper under `history_<limit>_<offset>`, with the given TTL or 1800 s when none is given, and returns the key. |
| Cache.GetCachedHistory | cache.py:169-172 | Returns the live wrapper under the history key, or nothing, counting a hit or a miss. An expired entry under that key is deleted, and every other entry stays. |
| Cache.HistoryRoundTrip | cache.py:158-172 | A page cached and read back no later than its TTL (1800 s when none is given) is the wrapper holding the cached data, and the read counts a hit. The cache then holds the earlier entries with that key overwritten. |
| Cache.InvalidateHistory | cache.py:174-179 | Removes exactly the `history_` keys, keeps all others, and returns how many were removed. |
| Cache.InvalidateDependentCaches | cache.py:265-275 | The statistics cache loses exactly its `stats_` keys and the history cache exactly its `history_` keys; the counters stay. |
| RateLimiting.Prune | rate_limiter.py:38-42 | Keeps exactly the requests newer than one hour before `now`. |
| RateLimiting.Recent | rate_limiter.py:45-48 | Keeps exactly the requests younger than 60 s. |
| RateLimiting.Check | rate_limiter.py:34-67 | One check on one client's list; its contract is `RateLimiting.CheckDecision` and `RateLimiting.CheckKeepsLastHour`. |
| RateLimiting.CheckDecision | rate_limiter.py:34-67 | A request is refused exactly when the minute window holds at least the per-minute cap, or the pruned list holds at least the per-hour cap. A refused request leaves the pruned list. An accepted one appends `(now, endpoint)` at the end. |
| RateLimiting.CheckKeepsLastHour | rate_limiter.py:38-66 | After a check, the list holds exactly the earlier requests of the last hour, plus the new one when it was accepted. |
| RateLimiting.RecentAppend | rate_limiter.py:45-66 | An appended request joins the minute window exactly when it is younger than a minute. |
| RateLimiting.RecentShrinksLater | rate_limiter.py:45-48 | Seen from a later instant, the minute window never holds more requests. |
| RateLimiting.RecentOfPrune | rate_limiter.py:38-48 | Pruning never adds to the minute window. |
| RateLimiting.HourBoundPreserved | rate_limiter.py:58-66 | If no list is longer than the hour cap before a check, none is after it. |
| RateLimiting.MinuteBoundPreserved | rate_limiter.py:45-66 | With `now` non-decreasing, the minute window never exceeds the per-minute cap once that held. |
| RateLimiting.TotalTrackedRemove | rate_limiter.py:187-189 | The total of the list lengths does not depend on the order the clients are summed in. |
| RateLimiting.RateLimiter.constructor | rate_limiter.py:16-19 | A new limiter has the given caps and tracks no client. |
| RateLimiting.RateLimiter.IsRateLimited | rate_limiter.py:28-67 | The client's list becomes the result of one check (an unseen client starts from nothing), and the answer is that check's decision. Every other client's list is untouched, and the hour bound is kept as an invariant. |
| RateLimiting.RateLimiter.GetLimitInfo | rate_limiter.py:69-99 | An untracked client has used nothing and is told the limits as its allowance. A tracked client's usage is counted on its stored list. Its remaining allowance is `max(0, limit - used)`, which equals the untracked answer too whenever the limits are not negative. |
| RateLimiting.RateLimiter.ResetClient | rate_limiter.py:101-108 | Returns true exactly when the client was tracked, and drops only that client. |
| RateLimiting.GetStats | rate_limiter.py:184-196 | Reports the number of tracked clients, the total length of their lists, and the two caps. |
| RateLimiting.ResetLimit | rate_limiter.py:215-223 | The same as `reset_client`, for an explicitly named client. |
| Validators.FirstMissingPresent | validators.py:32-34 | When the presence loop passes, every required field is in the dict. |
| Validators.FirstMissingAllPresent | validators.py:32-34 | When every required field is present, the presence loop passes. |
| Validators.CheckFieldsIff | validators.py:36-102 | On a dict holding every field, the chain of checks passes exactly when all the type, range and option conditions hold. |
| Validators.CheckMeasuresIff | validators.py:36-76 | The age, gender, height, weight and pressure checks pass exactly when each is a number in its closed range (gender 1 or 2) and diastolic is below systolic. |
| Validators.CheckOptionsIff | validators.py:78-100 | The cholesterol, glucose, smoke, alco and active checks pass exactly when each value is one of its options. |
| Validators.HasRequiredIndexed | validators.py:32-34 | A dict holds every required field exactly when it holds each entry of `REQUIRED_FIELDS`. |
| Validators.ValidIffAcceptable | validators.py:23-102 | `validate` returns `(True, None)` exactly for a dict that passes every check. |
| Validators.Validate | validators.py:23-102 | The verdict of `validate`; `Validators.ValidIffAcceptable` states exactly which bodies it accepts. |
| Validators.MissingFieldReportedFirst | validators.py:16-34 | The first required field missing from the dict is reported, whatever the other fields hold. |
| Validators.MissingFrom | validators.py:32-34 | The presence loop reports the first missing field from its position on. |
| Validators.AcceptedRanges | validators.py:37-76 | An accepted request has a numeric age in [1, 120], a height in [100, 250], a weight in [20, 300], a systolic pressure in [40, 300], and a diastolic pressure at least 40 and below the systolic. |
| Validators.AcceptedOptions | validators.py:44-100 | An accepted request has gender in {1, 2}, cholesterol and glucose in {0, 1, 2, 3}, and smoke, alco and active in {0, 1}. |
| Validators.AcceptableOptions | validators.py:44-100 | The same option facts, for any dict that passes the checks. |
| Validators.DiastolicNotBelowSystolicRejected | validators.py:75-76 | A diastolic value at or above the systolic one is refused even when both are in range. |
| Validators.SizeChecksComeFirst | validators.py:107-114 | A non-list, an empty list and a list of more than 1000 items are each refused with their own message, whatever the records hold. |
| Validators.VerdictsOf | validators.py:117-118 | One `validate` verdict per record, in order. |
| Validators.CollectPrefix | validators.py:116-120 | Each turn of the loop extends the result by that record's verdict. |
| Validators.ValidateBatch | validators.py:105-125 | The method computes the batch verdict. |
| Validators.CollectBatchErrors | validators.py:116-120 | The loop computes the error list, or the exception of the first record that raised. |
| Validators.AbortedStaysAborted | validators.py:117-118 | Once a record raised, the whole batch raises that exception. |
| Validators.ErrorsOnlyGrow | validators.py:119-120 | An error, once collected, is never lost. |
| Validators.NoErrorsIffAllValidVerdicts | validators.py:116-122 | The error list is empty, with no exception, exactly when every verdict is valid. |
| Validators.NoErrorsIffAllValid | validators.py:116-122 | The error list is empty exactly when `validate` accepts every record. |
| Validators.BatchValidIffAllValid | validators.py:105-125 | A batch is accepted exactly when it is a list of 1 to 1000 records that `validate` all accept. |
| Validators.BatchVerdict | validators.py:105-125 | The verdict of `validate_batch`; `Validators.BatchValidIffAllValid` states exactly which batches it accepts. |
| Validators.InvalidPositions | validators.py:119-120 | Lists exactly the positions of the rejections, in increasing order. |
| Validators.InvalidIndices | validators.py:117-120 | Lists exactly the indices of the records `validate` rejects, in increasing order. |
| Validators.ErrorsFollowRejections | validators.py:119-120 | The error list has one `Record i: message` entry per rejection, in index order. |
| Validators.ErrorsFollowInvalidRecords | validators.py:116-120 | When no record raised, there is one `Record i: message` entry per rejected record, in index order. |
| Validators.BatchMessageJoinsFirstThree | validators.py:122-123 | A refused batch's message is the first three record errors joined by `; `. |
| Utils.RoundHalfEven | utils.py:12-19 | The result is an integer nearest to `n/d`, and it is even on a tie. |
| Utils.RoundHalfEvenUnique | utils.py:12-19 | An integer strictly within one half of `n/d` is the rounded value. |
| Utils.YearsToDays | utils.py:12-14 | `round(years * 365.25)`, rounded half to even through `Utils.RoundHalfEven`; `Utils.AgeRoundTrip` is its inverse with `Utils.DaysToYears`. |
| Utils.DaysToYears | utils.py:17-19 | `round(days / 365.25)`, rounded half to even; `Utils.DaysToYearsIsFloor` gives its closed form. |
| Utils.DaysToYearsIsFloor | utils.py:17-19 | Integer day counts never fall on a tie, so `days_to_years(d) = (8d + 1461) // 2922`. |
| Utils.YearsToDaysExamples | utils.py:12-14 | 2 years is 730 days and 6 years is 2192 (ties rounded to even); 1 year is 365 and 3 years is 1096. |
| Utils.AgeRoundTrip | utils.py:12-19 | `days_to_years(years_to_days(a)) == a` for every integer age. |
| Utils.TierOf | utils.py:48-58 | Below 30 is low, from 30 to below 60 is moderate, and 60 or more is high. |
| Utils.TierMonotone | utils.py:50-58 | A higher percentage never falls in a lower tier. |
| Utils.Colour | utils.py:31-35 | Green, orange and red correspond one to one to low, moderate and high. |
| Utils.GetRiskLevel | utils.py:38-64 | The percentage is `100 · probability`, and the level and colour are those of its tier. |
| Utils.RiskBoundaries | utils.py:48-58 | Exactly 30 and exactly 60 fall in the higher tier; 0.29 is low and 0.59 is moderate. |
| Utils.FirstBand | utils.py:95-98 | Returns the name of a band that contains the BMI, or `obese` when none does. |
| Utils.CategoryIsTheUniqueBand | utils.py:70-98 | A non-negative BMI lies in exactly one band, and that band's name is returned; a negative BMI gets `obese`. |
| Utils.GetCategory | utils.py:70-98 | The BMI category; `Utils.CategoryIsTheUniqueBand` states that it is the one band holding the BMI. |
| Utils.FloorDiv | utils.py:176 | Python's floor division: the quotient is the floor for either sign of the divisor. |
| Utils.PagesIsCeiling | utils.py:167-181 | For a positive limit, `pages` is the ceiling of `total / limit`, and `has_next` holds exactly when `offset + limit < total`. |
| Utils.ListPagination | utils.py:167-181 | The pagination block, with no result for a zero limit (division by zero); `Utils.PagesIsCeiling` states its fields. |
| Utils.FormatError | utils.py:155-164 | The message is kept, and the code is attached exactly when it is given and non-empty. |
| Utils.GetSystemStatus | utils.py:187-198 | The status is `healthy` exactly when the model is loaded, and the message follows it. |
| Models.OneMinus | models.py:19 | Each element is complemented. |
| Models.SplitProbabilityAsWritten | models.py:18-19 | A list or tuple gives `p[1]` and `p[0]`, and needs at least two elements. A scalar gives `p` and `1 - p`. A numpy row takes the scalar branch and is stored whole. |
| Models.SplitProbability | models.py:18-19 | Any indexable row of at least two probabilities gives `p[1]` and `p[0]`, and a scalar gives `p` and `1 - p`; both stored values are numbers. |
| Models.SplitProbabilityAgreesOffArrays | models.py:18-19 | The corrected split differs from the one as written only on numpy rows. |
| Models.ScalarProbabilitiesSumToOne | models.py:18-19 | For a scalar, the two stored probabilities add up to one. |
| Models.ToFloat | models.py:51-52 | `float` converts a number, and converts an array only when it holds exactly one element. |
| Models.NewRecordAsWritten | models.py:11-43 | A record is built exactly when the split succeeds, with status `completed` and the measurements as given. |
| Models.NewRecord | models.py:11-43 | The record carries the given id, class, risk percentage and measurements, the split probabilities, and status `completed`. |
| Models.ToDict | models.py:45-76 | `to_dict` succeeds exactly when both probabilities convert. `has_disease` is `prediction != 0`. `ap_hi` and `ap_lo` become `bp_systolic` and `bp_diastolic`. The id, timestamp, prediction, risk level, colour, both ages and the ten measurements are each copied to their own key. |
| Models.ArrayRowRecordCannotBeSerialised | models.py:18-51 | As written, a record built from a numpy row of two probabilities cannot be serialised. |
| Models.RowRecordSerialises | models.py:18-51 | With the corrected split, such a record serialises with disease probability `p[1]` and healthy probability `p[0]`. |
| Models.Bucket | models.py:97-102 | 60 or more is high, from 30 to below 60 is moderate, and otherwise low. |
| Models.BucketIsTier | models.py:97-102 | The statistics buckets are the risk tiers of `RiskAssessor`. |
| Models.CountTier | models.py:97-102 | A tier count never exceeds the number of records. |
| Models.CountDisease | models.py:104-107 | The disease count never exceeds the number of records. |
| Models.TiersPartition | models.py:97-102 | The low, moderate and high counts add up to the number of records. |
| Models.CountsAppend | models.py:95-109 | Appending a record raises exactly its own tier's count and, when its class is 1, the disease count. |
| Models.StatisticsRecord.constructor | models.py:84-91 | All counters start at zero with no records. |
| Models.StatisticsRecord.AddPrediction | models.py:93-109 | The total and exactly one risk counter go up by one. Disease goes up exactly when the class is 1, and healthy otherwise. The record is appended at the end, and the counters keep counting the stored records. |
| Models.StatisticsRecord.Partitions | models.py:84-109 | `low + moderate + high = total = disease + healthy`. |
| Models.StatisticsRecord.GetSummary | models.py:111-125 | The summary mirrors the counters. The disease percentage is 0 before the first prediction, is otherwise `disease / total · 100`, and lies between 0 and 100. |
| Errors.DefaultPredictionError | errors.py:12-17 | The base error defaults to status 400 and code `PREDICTION_ERROR`. |
| Errors.DefaultNotFound | errors.py:47-54 | The default `NotFoundError` says `Resource not found`, with status 404. |
| Errors.SubclassStatusAndCode | errors.py:19-63 | Each subclass has its fixed status and code: 400 `VALIDATION_ERROR`, 503 `MODEL_ERROR`, 503 `DATABASE_ERROR`, 404 `NOT_FOUND` and 429 `RATE_LIMIT_EXCEEDED`. The not-found message is `<resource> not found`. |
| Errors.CodeIdentifiesSubclass | errors.py:19-63 | The code alone tells the subclasses apart. |
| Errors.Message | errors.py:19-63 | The `message` attribute of each subclass; `Errors.SubclassStatusAndCode` states its value for `NotFoundError`. |
| Errors.Status | errors.py:19-63 | The `status_code` attribute; `Errors.SubclassStatusAndCode` states it for every subclass. |
| Errors.Code | errors.py:19-63 | The `error_code` attribute; `Errors.SubclassStatusAndCode` and `Errors.CodeIdentifiesSubclass` state it for every subclass. |
| Errors.FormatErrorResponse | errors.py:152-166 | The status is `error`, and `code`, `message` and `status_code` are always present. Extra data is merged only when it is non-empty, and its keys win on a clash. |
| Errors.HandleErrorsMapping | errors.py:170-192 | A normal result passes through. `ValidationError` and `ModelError` are answered with their own status, code and message. Anything else is a 500 `INTERNAL_ERROR`. The body's status code always equals the HTTP status. |
| Errors.HandleErrors | errors.py:170-192 | The reply of the `handle_errors` decorator; `Errors.HandleErrorsMapping` states it for every outcome. |
| Errors.RegisteredReply | errors.py:71-149 | A subclass with its own handler is answered with its own status and code; a validation error with a field adds it. Anything else is a 500 `INTERNAL_ERROR` with the generic message. |
| App.AgeYearsOf | app.py:164 | The truncated age of an accepted request lies in 1..120 and is the integer part of the age sent. |
| App.AcceptedBodyIsDict | validators.py:23-102 | A body that `validate` accepts is a dict with every required field. |
| App.Score | app.py:163-243 | Scoring an accepted request fails only with a 400. The record is built with the corrected construction of the Findings row; `App.ScoreAsWritten` is the code as written. |
| App.Gate | app.py:141-161 | The checks before scoring let a request through exactly when the model is loaded and the body is a dict that `validate` accepts; otherwise they refuse it. |
| App.GateOpensIff | app.py:141-161 | The gate opens exactly for a loaded model and an accepted dict. |
| App.PredictAttempt | app.py:141-248 | The checks run in code order: 503 `MODEL_NOT_LOADED` when the model is not loaded, then 400 for a falsy body, then 400 `VALIDATION_ERROR`. An exception is a 400 `PREDICTION_ERROR`. Only an accepted dict is scored. |
| App.AcceptedIffScored | app.py:141-243 | A request is scored exactly when the model is loaded, the body is accepted and the classifier returns at least two probabilities. The stored dict and the reply then agree with the classifier on every field. |
| App.ScoreAsWritten | app.py:163-248 | Scoring with the record built as written (a numpy row taken as one scalar) fails only with a 400. |
| App.ScoreAsWrittenRefuses | app.py:195-248 | As written, scoring an accepted request is always refused. When the classifier returns at least two probabilities, the reply is 400 `PREDICTION_ERROR` with `Prediction error: TypeError`; otherwise it is the same refusal as the corrected code. |
| App.PredictAttemptAsWritten | app.py:141-248 | The handler as written: the same checks, then `App.ScoreAsWritten`. |
| App.AsWrittenNeverAccepts | app.py:141-248 | The handler as written never answers 200. A request that reaches the classifier with a two-entry row gets the 400 `PREDICTION_ERROR` reply `Prediction error: TypeError`; every other request gets the same reply as the corrected handler. |
| App.ScoreItem | app.py:288-321 | A record `validate` rejects, or on which it raises, is dropped with its index and message. A scored record got `validate`'s approval and the id given for it. |
| App.Outcomes | app.py:287 | One outcome per record, in order. |
| App.SplitIsExact | app.py:284-321 | Every record lands in exactly one of `results` and `failed`. Each failed entry names a dropped record, and the indices increase. |
| App.SplitSizes | app.py:284-321 | `len(results) + len(failed)` is the number of records. |
| App.SplitFailedSound | app.py:287-321 | Each failed entry names a dropped record, in increasing index order. |
| App.SplitFailedComplete | app.py:287-321 | Every dropped record has its entry in `failed`. |
| App.PartitionOf | app.py:284-321 | The partition of a batch has the same soundness, completeness, ordering and size facts. |
| App.BatchReply | app.py:270-335 | A missing `predictions` field is a 400. Every error is a 400 without a code. A 200 reply implies an accepted list, `success_count + failed_count` equal to its length, and `failed` null exactly when nothing failed. |
| App.BatchPredict | app.py:270-335 | The handler with its loop computes that reply. |
| App.ScoreAll | app.py:284-321 | The loop computes the partition of the batch. |
| App.InvalidRecordRefusesBatch | app.py:279-282 | One record `validate` refuses is enough to answer the whole batch with 400. |
| App.ValuesOf | app.py:368 | `list(prediction_history.values())` in insertion order. |
| App.LastTen | app.py:348 | `values[-10:]` is the last ten values, or all of them when there are fewer. |
| App.StoreKeepsIndex | app.py:226 | Storing under an id, and listing the id when it is new, keeps the insertion-order index of the dict. |
| App.PredictionService.constructor | app.py:37-38 | The service starts with an empty history and fresh statistics. |
| App.PredictionService.History | app.py:368 | The stored dicts in insertion order, one per key. |
| App.PredictionService.GetPrediction | app.py:250-268 | 404 `NOT_FOUND` exactly for an unknown id; otherwise the stored dict as it was stored. |
| App.PredictionService.Predict | app.py:121-248 | Runs `App.PredictAttempt`, so it uses the corrected record construction of the Findings row. A refused request changes nothing. An accepted one stores its dict under the new id, appends the record to the statistics, and returns the answer. Every other id reads as before. |
| App.PredictionService.Store | app.py:226-227 | The dict is stored under the id and the record is added to the statistics. |
| App.PredictionService.PredictionStatus | app.py:337-355 | The summary of the statistics, and the last ten stored dicts in insertion order. |
| App.PredictionService.PredictionHistory | app.py:357-390 | Reports the number of stored records and returns only stored records. |
| App.PredictionService.ClearHistory | app.py:521-543 | Reports the earlier size; afterwards the history is empty, every counter is zero, and every lookup is a 404. |
| HistoryPage.LexIrreflexive | app.py:369 | No timestamp is less than itself. |
| HistoryPage.LexTransitive | app.py:369 | The string order on timestamps is transitive. |
| HistoryPage.LexTotal | app.py:369 | The string order on timestamps is total. |
| HistoryPage.NotLessTransitive | app.py:369 | "Not older than" is transitive. |
| HistoryPage.InsertMultiset | app.py:369 | Insertion adds exactly the one record. |
| HistoryPage.InsertNewestFirst | app.py:369 | Insertion keeps a list newest first. |
| HistoryPage.HeadNotOlder | app.py:369 | In a newest-first list no record is newer than the first. |
| HistoryPage.SortIsNewestFirstPermutation | app.py:368-369 | The sorted history is the stored history rearranged, newest first. |
| HistoryPage.SortNewestFirst | app.py:368-369 | Python's stable descending sort by timestamp; `HistoryPage.SortIsNewestFirstPermutation` states that it is a newest-first rearrangement. |
| HistoryPage.InsertKeepsTies | app.py:369 | Insertion keeps the records with its own timestamp behind it. |
| HistoryPage.SortIsStable | app.py:369 | Records with equal timestamps keep their stored order. |
| HistoryPage.SliceBound | app.py:372 | A Python slice bound is clamped into the list, with a negative bound counted from the end. |
| HistoryPage.PySlice | app.py:372 | `s[start:stop]` is the window between the clamped bounds, or empty. |
| HistoryPage.PageOfIsWindow | app.py:372 | For a non-negative limit and offset, the page is the window `[offset, offset+limit)` clipped to the list. |
| HistoryPage.HistoryResponse | app.py:357-385 | The limit is `min(limit, 1000)` with default 100, and the offset is `max(0, offset)` with default 0. `total_records` and `returned` are the sizes, `has_more` is `offset + limit < total`, and the page is the slice of the sorted history. |
| HistoryPage.PageIsWindow | app.py:365-377 | For a non-negative limit, the page is the window of the sorted history, holds at most `limit` records, and is newest first. |
| HistoryPage.SortedWindow | app.py:372-372 | A page of a newest-first list is its window clipped to the list, at most `limit` long and newest first. |
| HistoryPage.PageDrawnFromHistory | app.py:368-372 | Whatever the arguments, the page holds only stored records. |
| HistoryPage.PySliceWithin | app.py:372 | A slice holds only elements of the list. |
| HistoryPage.SortedLength | app.py:369 | Sorting keeps the length. |
| HistoryPage.SliceNewestFirst | app.py:369-372 | A window of a newest-first list is newest first. |
| HistoryPage.HasMoreIffRecordsFollow | app.py:377-380 | `has_more` holds exactly when a record follows the page. |
| HistoryPage.PageOfTiles | app.py:372 | Two consecutive windows of size `l` make up the window of size `2l`. |
| HistoryPage.PagesTile | app.py:361-372 | Two consecutive pages of size `l` make up the page of size `2l`. |
| PredictPage.FormError | static/predict.js:73-99 | The checks run in code order. A missing or out-of-range age fails first. The form passes exactly when the age is in 1..120, the gender is 1 or 2, and every number parsed. |
| PredictPage.FormAgreesWithServerOnAgeAndGender | static/predict.js:76-83 | A form the browser sends has an age and a gender that the server's validator accepts too. |
| PredictPage.Without | static/predict.js:381 | The filter never lengthens the list. |
| PredictPage.WithoutMembers | static/predict.js:381 | The filter keeps exactly the records that do not carry the id. |
| PredictPage.WithoutOmitsId | static/predict.js:381 | No kept record carries the id. |
| PredictPage.WithoutAppend | static/predict.js:381 | The filter distributes over concatenation, so kept records stay in order. |
| PredictPage.WithoutAbsent | static/predict.js:381 | Without a record carrying the id, the filter changes nothing. |
| PredictPage.WithoutKeepsUnique | static/predict.js:381 | Filtering keeps the ids unique. |
| PredictPage.PrependKeepsUnique | static/predict.js:384-388 | A record whose id the others lack can go in front, and every prefix keeps the ids unique. |
| PredictPage.FilledId | static/predict.js:362-364 | A present id is kept; a missing one becomes a `pred_…` id. |
| PredictPage.PatientOf | static/predict.js:369-374 | A missing patient name becomes a non-empty default; a given one is kept. |
| PredictPage.StoredList | static/predict.js:380-389 | The new record comes first and no other record carries its id. The rest are the earlier records without that id, in order, cut so the list has at most 100 entries. Unique ids stay unique. |
| PredictPage.InFront | static/predict.js:384-389 | `unshift` then `slice(0, n)`: the element first, then as much of the list as fits. |
| PredictPage.SavedList | static/predict.js:726-745 | An already saved id leaves the list unchanged. Otherwise the new entry comes first, followed by the earlier ones, with at most 50 in all. |
| PredictPage.BrowserStorage.constructor | static/predict.js:359 | Both lists start empty. |
| PredictPage.BrowserStorage.StorePredictionData | static/predict.js:356-396 | The stored list becomes that list with the filled id and the patient defaults; the saved list is untouched. |
| PredictPage.BrowserStorage.SavePredictionLocalStorage | static/predict.js:723-755 | Reports whether the entry was added, which is exactly when the id was not saved yet. The saved list becomes that list, and the prediction list is untouched. |
| PredictPage.RiskClassFollowsTier | static/predict.js:661-665 | The risk class is the server's tier: `low-risk` exactly below 30, and `high-risk` exactly from 60. |
| PredictPage.GetRiskClass | static/predict.js:661-665 | The risk class; `PredictPage.RiskClassFollowsTier` ties it to the server's tier. |
| PredictPage.RankedExtra | static/predict.js:685-706 | The extra line of each position, in code order. |
| PredictPage.ExtrasUpToInOrder | static/predict.js:685-706 | After the first `k` checks, the extras are exactly the applicable lines of those positions, in order. |
| PredictPage.ExtrasAreTheApplicableOnes | static/predict.js:685-706 | The extras are exactly the lines that apply, each once, in the order blood pressure, cholesterol, smoking, activity, weight. |
| PredictPage.AppendExtra | static/predict.js:685-706 | Each check extends the lines by its own line exactly when it applies. |
| PredictPage.GetRecommendations | static/predict.js:667-709 | Three lines for the tier (thresholds 60 and 30), followed by the applicable extra lines. The weight line needs a weight above 80 and a BMI that is still above 25 after rounding to two places. |
| PredictPage.Hundredths | static/predict.js:702 | `toFixed(2)` as a count of hundredths: the nearest whole number of hundredths, halves rounded up. |
| PredictPage.BmiAbove25 | static/predict.js:702-703 | The weight line's BMI test compares the two-place rounding with 25; a zero height gives an infinite BMI, which passes. |
| PredictPage.BmiAbove25Iff | static/predict.js:702-703 | The rounded BMI is above 25 exactly when the BMI is at least 25.005, or the height is zero. |
| PredictPage.BmiRoundedBeforeComparing | static/predict.js:702-703 | 81.01 kg at 180 cm has a BMI above 25, yet the rounded comparison fails, so the rounding matters. |
| ResultsPage.CountWhere | static/results.js:64-68 | A filtered count never exceeds the length. |
| ResultsPage.RiskCountsPartition | static/results.js:64-66 | The high, moderate and low counts add up to the list length. |
| ResultsPage.DiseaseCountsPartition | static/results.js:68-69 | The disease and healthy counts add up to the list length. |
| ResultsPage.CountWhereExtensional | static/results.js:64-68 | Filters that agree on every entry count the same. |
| ResultsPage.CalculateStatistics | static/results.js:63-92 | The total is the length, and the risk counts add up to it. `healthyCount` is the length minus `diseaseCount`. The disease rate is defined exactly for a non-empty list and lies between 0 and 100. |
| ResultsPage.CountsFollowTiers | static/results.js:64-66 | The cards count by the server's risk tiers. |
| ResultsPage.RowColourFollowsTier | static/results.js:161 | The row colour follows the server's tier and the prediction page's risk class. |
| ResultsPage.RowColour | static/results.js:161 | The row colour; `ResultsPage.RowColourFollowsTier` ties it to the server's tier. |
| ResultsPage.RowsOf | static/results.js:133-140 | One row per entry, in order. |
| ResultsPage.RowsOfAppend | static/results.js:149-151 | The rows of a concatenation are the concatenated rows. |
| ResultsPage.NextPage | static/results.js:147 | `slice(currentRows, currentRows + 10)`: the next window of at most ten entries, or nothing past the end. |
| ResultsPage.ResultsTable.constructor | static/results.js:133-135 | The table body starts empty, with the button shown. |
| ResultsPage.ResultsTable.AppendRows | static/results.js:137-151 | The loop appends one row per entry, in order. |
| ResultsPage.ResultsTable.Load | static/results.js:36-61 | An empty list shows the placeholder line; otherwise the first ten entries are shown. |
| ResultsPage.ResultsTable.DisplayMore | static/results.js:142-157 | The next ten entries are appended. The button stays shown exactly when entries remain past them. |
| ResultsPage.DisplayMoreExtendsPrefix | static/results.js:142-157 | Showing more after the first `k` entries shows the first `k + 10`, and the button hides exactly when the whole list is shown. |
| ResultsPage.EmptyListHidesButton | static/results.js:142-156 | With no entries, "Load more" adds nothing and hides the button. |
| ResultsPage.DeletePrediction | static/results.js:252-260 | Once confirmed, every entry with the id goes and the others stay in order; the saved list is untouched. |
| ResultsPage.ClearStoredHistory | static/results.js:28-34 | Once confirmed, the prediction list is removed; the saved list stays. |
| ResultsPage.ClearThenLoad | static/results.js:28-61 | After the history is cleared, the reloaded page shows the placeholder line alone. |
| ResultsPage.DeleteIsIdempotent | static/results.js:255 | Deleting twice is deleting once. |
| ResultsPage.DeleteKeepsOtherIds | static/results.js:255 | Deleting one id leaves the entries with any other id. |
| ResultsPage.DeleteUndoesStore | static/results.js:252-256 | Deleting the entry just stored gives the earlier list without that id, cut to 99 entries. |
| ScriptUtils.MathRound | static/script.js:157-163 | `Math.round(n/d)` is the integer with a half rounded up. |
| ScriptUtils.AgeInYearsIsNearest | static/script.js:157-159 | `ageInYears(d)` is the integer nearest to `d / 365.25`. |
| ScriptUtils.AgeRoundTrip | static/script.js:157-163 | `ageInYears(yearsToAgeDays(y)) == y` for every integer `y`. |
| ScriptUtils.AgeInYears | static/script.js:157-159 | `Math.round(days / 365.25)`, rounding halves up; `ScriptUtils.AgeInYearsIsNearest` states that it is the nearest integer. |
| ScriptUtils.YearsToAgeDays | static/script.js:161-163 | `Math.round(years * 365.25)`; `ScriptUtils.BrowserDays` gives its closed form and `ScriptUtils.AgeRoundTrip` its inverse. |
| ScriptUtils.AgeInYearsAgreesWithServer | static/script.js:157-159 | The browser converts days to years exactly as the server does. |
| ScriptUtils.BrowserDays | static/script.js:161-163 | `yearsToAgeDays(y) = 365y + (y + 2) // 4`. |
| ScriptUtils.ServerDays | utils.py:12-14 | `years_to_days(y) = 365y +` the quarter years rounded half to even. |
| ScriptUtils.QuarterRounding | static/script.js:161-163 | The server's rounding of the quarter years falls one short of the browser's exactly when `y % 8 == 2`. |
| ScriptUtils.YearsToAgeDaysAgainstServer | static/script.js:161-163 | The browser's days exceed the server's by one exactly when `y % 8 == 2`, and agree otherwise. |
| ScriptUtils.AgeDaysExamples | static/script.js:161-163 | 2 years is 731 days in the browser and 730 on the server; 6 years is 2192, and 50 years is 18263. |
| ScriptUtils.GetDiseaseRisk | static/script.js:165-173 | Below 30 is Low/green, below 60 is Moderate/orange, and otherwise High/red. |
| ScriptUtils.DiseaseRiskAgreesWithServer | static/script.js:165-173 | Given the same percentage, the browser names and colours it exactly as the server's `RiskAssessor` does. The browser is sent the percentage rounded to two places, and the model does not round it (see the `Utils.GetRiskLevel` line under Left out). |
| Basics.Percentage | models.py:123 | `part / whole · 100` is never negative, and is at most 100 for a part of the whole. |
| Basics.IntToString | cache.py:113 | `str(i)` is non-empty and starts with `-` exactly for a negative number. |
| Basics.IntToStringInjective | cache.py:160 | Distinct integers render to distinct strings. |
| Basics.IntPairInjective | cache.py:160 | Two integers joined by `_` determine both integers. |
| Basics.Join | validators.py:123 | `"; ".join` of nothing is empty, and of one part is that part. |
| Json.NumberOf | validators.py:38-40 | A numeric value stands for its number, with `True` as 1 and `False` as 0. |
| Json.InOptionsMeansEqual | validators.py:45 | `v in options` holds exactly for a numeric value equal to an option. |
| Json.Contains | validators.py:33 | `key in data` looks the key up in a dict, and raises `TypeError` on a number or `None`. |

## Left out

- `Utils.GetRiskLevel`: keeps the percentage unrounded. The source returns `round(percentage, 2)` (utils.py:63), and `add_prediction` buckets that rounded value. Rounding a float to two places is not modelled, so near 30 and 60 the two tierings can differ in the source but agree here.
- `Models.StatisticsRecord.GetSummary`: keeps the disease percentage unrounded. The source rounds it to two places (models.py:123).
- `Cache.CacheManager.Stats`: keeps the hit rate unrounded. The source rounds it to two places (cache.py:98).
- `ResultsPage.CalculateStatistics`: models the counts and the disease rate but not the averages (risk, age, weight) or their `toFixed` strings. Those are floating-point renderings.
- `Cache.KeyTextInjective`: stated for non-negative integer inputs only. The source's f-string would render floats (`70.5`) and negative numbers, and that text is not modelled.
- `Cache.PredictionKey`: the MD5 hex digest is an opaque function parameter, so the model cannot say that distinct texts give distinct keys.
- The BMI is computed on exact reals, not in floating point (utils.py:78-90 and static/predict.js:702). `PredictPage.BmiAbove25` models the rounding to two places of `toFixed(2)` with halves rounded up, and reads a zero height as an infinite BMI.
- `App.Score` and `App.PredictionService.Predict` build the record with the corrected construction of the Findings row, not as app.py:195-207 does. `App.PredictAttemptAsWritten` models the code as written, and `App.AsWrittenNeverAccepts` shows that it never answers 200 when the classifier returns a two-entry row.
- TTLs are whole seconds, and time is integer microseconds. `datetime.now()`, `DateUtils` and every timestamp string are parameters.
- Exceptions are modelled by class name. The text of a Python exception is not reproduced.
- The classifier (`scaler.transform`, `model.predict`, `model.predict_proba`), `uuid.uuid4`, `Date.now` and `Math.random` are function or value parameters.
- Loading the model, scaler and feature files (app.py:48-77) is left out; whether the model loaded is a parameter.
- `/api/prediction-stats`, `/api/prediction-health`, `/api/model-info`, `/api/health` and the CSV statistics (app.py:392-519) are left out, and so are the template routes (app.py:84-112). They are I/O or formatting around the modelled state.
- The second block of routes (app.py:589-999) is left out. It is never registered, because `app.run` at app.py:582 blocks first.
- `ResponseFormatter.success` is left out because it only wraps data with a timestamp.
- The decorators `cache_result`, `rate_limit` and `rate_limit_per_endpoint`, the `after_request` headers, `jsonify` and Flask's request and IP extraction are left out (rate_limiter.py:22-26, 115-160, 227-240). They are framework glue. The client id is a parameter.
- `RateLimitManager.get_client_stats` (rate_limiter.py:199-212) is left out because it only renders one client's list with ISO timestamps.
- The cache decorators `cache_result` and `cache_prediction_result` (cache.py:189-219) and `warmup_cache` (cache.py:276-283) are left out. They are glue around the modelled cache operations.
- The second `CacheManager` class (cache.py:223-262) is left out. It only logs or delegates, and it shadows the first class's name.
- Logging (`logger.py`, `setup_error_logging`, every `logger` call) is left out.
- The services hold their dicts without locks, and the model is sequential. Concurrent requests are not modelled.
- On the browser side, the DOM, Chart.js, `alert`, `confirm` (a boolean parameter), `fetch`, and the JSON encoding of local storage are left out. A `JSON.parse` failure is not modelled.
- Storage is modelled as two sequences of records.
- The "Load more" button's visibility on first load is not set by the code; the model starts it shown.
- `viewPredictionDetails`, the PDF, CSV and print reports, `copyToClipboard`, `sharePredictionID` and `static/analytics.js` are left out. They are display only.
- The recommendation lines are named, not quoted, because their wording is display text.
- The training scripts, `config.py`, `verify_backend.py`, `PROJECT_STATUS.py` and `test_imports.py` are left out. They hold no request logic.

## Findings

| source | as written | input that shows it | evidently intended | confidence | as-written member | corrected member |
|---|---|---|---|---|---|---|
| app.py:195-207 | `predict` passes the numpy row `probability[0]` to `PredictionRecord`. The constructor indexes only a `list` or `tuple` (models.py:18-19), so it takes the scalar branch and stores the whole array as the disease probability. `to_dict`'s `float()` (models.py:51) then raises `TypeError` on the two-element array. So a scored request is answered 400 `PREDICTION_ERROR`, and nothing is stored (App.AsWrittenNeverAccepts follows the request through the handler). | any accepted request for which `predict_proba` returns the row `[0.3, 0.7]` | the row is indexed whatever its container: disease `p[1]`, healthy `p[0]` | not executed | `Models.ArrayRowRecordCannotBeSerialised` | `Models.RowRecordSerialises` |
