# Restaurant enrichment pipeline: a verified model

This project models, in Dafny, the core of a pipeline that enriches Salesforce
restaurant accounts with Google Maps data found through SerpAPI. The pipeline has
two variants:

- **The staged variant** (`SerpAPI/src`). Accounts are read in pages ordered by
  `Id`. Each account is searched once, sanity-checked against the account name and
  logged to a Supabase staging table plus a history table. A separate sync pass then
  pushes the `PENDING` rows to Salesforce and marks them `SYNCED` or `ERROR`.
- **The script variant** (`scripts/serp-api`). It searches, checks and updates
  Salesforce directly. It keeps per-status counters and a CSV log, and it skips the
  accounts listed in a processed-ids file.

Around them sit two maintenance scripts: a price-format migration over the staging
table and a database check (status totals and duplicate ids).

Modules:

- `Py`: the Python values and builtins the code relies on:
  - values: dicts, truthiness, `dict.get`;
  - strings: `str.strip`, ASCII `lower`, `join`;
  - counting: `str.count`, and the sum of a dict's values.
- `Price`: both copies of `_clean_price`, with the price regexes written out as
  leftmost-match searches. The sync copy differs from the enrichment copies in its
  range-separator class.
- `Query`: the search query built from the account's name and billing address.
- `Sanity`: the name-match sanity check.
- `SerpClient`: result selection and `_process_result`.
- `Staging`: the Supabase client as a class over an in-memory table keyed by
  `account_id`, with an append-only history.
- `Enrichment`: the staged `EnrichmentService` (`enrich_account`, `_log_result`).
- `ScriptEnrichment`: the script `EnrichmentService`:
  - the update payload;
  - per-status counters;
  - CSV rows;
  - the processed-file appends.
- `Sync`: `SyncService`: the Salesforce payload and the pending-row loop.
- `Paging`, `SerpapiMain`, `ScriptsMain`: the seek pagination of both `main.py`
  drivers.
- `Migration`: the offset-paginated price migration.
- `CheckDatabase`: the database check.

External services are parameters of the model:

- The SerpAPI response is a `Result<Dict>`.
- The fuzzy ratio is any integer-valued function of two values. fuzzywuzzy's scores lie in 0..100, but no contract depends on that range.
- Salesforce `update_account` returns a `Reply`.
- The Salesforce account query is a fixed, id-sorted sequence of accounts.
- Faults are predicates saying which call raises: a store write, a fetch, a page read.
- `str()` of a float, list or dict is a `render` function.
- Today's date and the current time are strings.

## Model

| member | source | states |
|---|---|---|
| Price.SearchRange | SerpAPI/src/enrichment_service.py:143 | the range found is a match of digits, optional spaces, a separator, optional spaces and digits at its start; no earlier position matches; `None` only when no position matches (leftmost `re.search`) |
| Price.SearchNumber | SerpAPI/src/enrichment_service.py:151-153 | the first number is absent exactly when the text holds no digit |
| Price.TextMagnitude | SerpAPI/src/enrichment_service.py:141-153 | a text has a magnitude exactly when it holds a digit |
| Price.Tier | SerpAPI/src/enrichment_service.py:160 | `"$"*k` is k characters long |
| Price.TierFor | SerpAPI/src/enrichment_service.py:162-179 | every magnitude maps to a tier between 1 and 4 |
| Price.TierForGrowsWithAmount | SerpAPI/src/enrichment_service.py:172-179 | above 4, a larger amount never gets a lower tier |
| Price.TierForSeam | SerpAPI/src/enrichment_service.py:166-173 | 4 is read as a level (`"$$$$"`) but 4.5 as an amount (`"$"`), so the tiers are not monotone across the seam |
| Price.CleanPriceWith | SerpAPI/src/enrichment_service.py:119-181 | the result is `None` or `"$"*k` with 1 ≤ k ≤ 4:<br>• falsy input gives `None`;<br>• a number gives the tier of its value;<br>• a text with digits gives the tier of its magnitude;<br>• a digit-free text gives `"$"*count('$')` when that count is 1..4, else `None`;<br>• other values give `None` |
| Price.TextPriceUsesLeftmostRange | SerpAPI/src/enrichment_service.py:141-153 | a text with digits takes the mean of its leftmost range, or its first number when no range matches |
| Price.CleanTextByMagnitude | SerpAPI/src/enrichment_service.py:162-179 | a text with digits is cleaned to the tier its magnitude selects |
| Price.TierIsFixedPoint | SerpAPI/src/enrichment_service.py:155-160 | every `"$"*k` with 1 ≤ k ≤ 4 cleans to itself |
| Price.CleanPriceIdempotent | SerpAPI/src/migrations/update_price_format.py:68-72 | cleaning an already-cleaned price changes nothing, with either separator class |
| Price.ZeroStringVersusZeroInt | scripts/serp-api/enrichment_service.py:213-254 | the text `"0"` cleans to `"$"` while the integer `0` cleans to `None` |
| Price.SmallRangeReadsAsLevel | SerpAPI/src/enrichment_service.py:163-171 | a range or number whose magnitude lies in 1..4 is read as a level, not an amount |
| Price.CopiesAgreeWithoutSeparatorVariants | SerpAPI/src/sync_service.py:86-128 | the sync copy agrees with the enrichment copies on every value whose text has none of `–`, `â`, `€`, `“` |
| Price.SyncCopyMissesEnDashRange | SerpAPI/src/sync_service.py:99-108 | `"€10–40"` cleans to `"$$"` in the enrichment copies but to `"$"` in the sync copy, whose class lacks U+2013 |
| Price.SyncCopyTreatsEuroAsSeparator | SerpAPI/src/sync_service.py:99-104 | `"10€40"` is a range in the sync copy (`"$$"`) but not in the enrichment copies (`"$"`) |
| Query.Kept | SerpAPI/src/enrichment_service.py:96 | keeps exactly the truthy parts, and never more parts than given |
| Query.KeptAppend | SerpAPI/src/enrichment_service.py:96 | keeping the parts of a concatenation keeps those of each piece, one after the other; with `KeptOne`, the kept parts keep their order and repeats |
| Query.KeptOne | SerpAPI/src/enrichment_service.py:96 | a single part is kept exactly when it is truthy |
| Query.KeptRaises | SerpAPI/src/enrichment_service.py:88-96 | joining the kept parts raises exactly when some truthy address part is not a string |
| Query.ConstructSearchQuery | SerpAPI/src/enrichment_service.py:88-96 | raises `TypeError` exactly when a truthy field is not a `str`; otherwise the query is non-empty and ends with `"Restaurant"` |
| Query.QueryOfTextFields | scripts/serp-api/enrichment_service.py:175-183 | for every account whose truthy address fields are strings: the query is the texts of those fields in the order name, street, city, country, then `"Restaurant"`, joined by single spaces and stripped |
| Query.BareAccountQuery | scripts/serp-api/enrichment_service.py:175-183 | an account with no name or address is searched as `"Restaurant"` |
| Query.FullAccountQuery | scripts/serp-api/enrichment_service.py:175-183 | the four fields are joined in the order name, street, city, country, before `"Restaurant"` |
| Sanity.BestMatch | SerpAPI/src/enrichment_service.py:55-60 | the score is the larger of the two ratios; `Name` is reported whenever its ratio is at least the other, so ties go to `Name` |
| Sanity.PassesIffOneNameMatches | SerpAPI/src/enrichment_service.py:62 | the check passes iff one of the two ratios reaches 80 |
| SerpClient.Mapped | scripts/serp-api/serp_client.py:69-85 | the mapped record has exactly the fifteen Salesforce fields |
| SerpClient.Iterate | scripts/serp-api/serp_client.py:95 | `for ext in extensions` visits a list's items, a text's characters, or a dict's keys |
| SerpClient.ScanExtensions | scripts/serp-api/serp_client.py:94-97 | finds a booking iff some visited element's lowercased text holds `booking` or `reserve` |
| SerpClient.VisitedElementsDecide | scripts/serp-api/serp_client.py:93-97 | scanning the visited elements decides whether the extensions mention a booking |
| SerpClient.MarkBookings | scripts/serp-api/serp_client.py:87-97 | the flag becomes `reserve_a_table` truthy or some extension mentions a booking; a non-iterable extensions value raises |
| SerpClient.MarkServiceOptions | scripts/serp-api/serp_client.py:99-109 | sets the delivery and takeout flags from the service options and changes nothing else |
| SerpClient.MarkClosure | scripts/serp-api/serp_client.py:111-116 | sets only the prospection status, to the closure label |
| SerpClient.ProcessResult | scripts/serp-api/serp_client.py:58-118 | the step-by-step mapping returns the record or exception the mapping function defines |
| SerpClient.FlagRecord | scripts/serp-api/serp_client.py:86-118 | the flags and the closure label set in turn give the record the mapping function defines once the type is known |
| SerpClient.SearchGoogleMaps | scripts/serp-api/serp_client.py:16-56 | returns the selected, mapped result; any record returned has the fifteen fields |
| SerpClient.SelectionCases | scripts/serp-api/serp_client.py:35-52 | an error or a failed call gives `None`; otherwise the first local result, else the place result, else `None` |
| SerpClient.Picked | scripts/serp-api/serp_client.py:54-56 | a mapping that raises yields `None` |
| SerpClient.MapResultShape | scripts/serp-api/serp_client.py:69-85 | every mapped record has the fifteen fields |
| SerpClient.BookingFlag | scripts/serp-api/serp_client.py:80-97 | the bookings flag is true iff `reserve_a_table` is truthy or a truthy extensions value mentions a booking |
| SerpClient.NoServiceOptions | scripts/serp-api/serp_client.py:100-104 | missing service options give neither delivery nor takeout |
| SerpClient.ServiceFlags | scripts/serp-api/serp_client.py:100-110 | for every input: a list gives delivery exactly when some item's lowered `str()` is `delivery`, and takeout exactly when one is `takeout` or `pickup`; a dict gives its `delivery` and `takeout` entries, `False` when missing; anything else gives neither |
| SerpClient.ListedServiceOptions | scripts/serp-api/serp_client.py:105-109 | listed options match exactly after lowercasing: `Pickup` is takeout, `Delivery available` is not delivery |
| SerpClient.MappedCopies | scripts/serp-api/serp_client.py:69-85 | ids, rating, reviews, raw price, title, address, thumbnail and website are the result's own values; the update date is today's |
| SerpClient.TypeJoined | scripts/serp-api/serp_client.py:65-67 | a list type becomes its items joined with `", "` and raises if one is not a `str`; any other type is kept |
| SerpClient.ClosureLabels | scripts/serp-api/serp_client.py:79-116 | `PERMANENTLY_CLOSED` and `TEMPORARILY_CLOSED` get their labels; every other status leaves `None` |
| Staging.WithoutTimestamp | SerpAPI/src/supabase_client.py:61-66 | the copy lacks `timestamp` and agrees with the input on every other key |
| Staging.SetColumn | SerpAPI/src/supabase_client.py:193-202 | only the named column of the matching row changes; no row appears or disappears |
| Staging.InsertKeepsRows | SerpAPI/src/supabase_client.py:52-114 | an insert never removes a row; the account has a row afterwards unless the upsert fails |
| Staging.Store.RecordExists | SerpAPI/src/supabase_client.py:18-32 | true iff a row has the account id; false when the query fails |
| Staging.Store.GetExistingRecord | SerpAPI/src/supabase_client.py:34-50 | returns the account's row, or `None` when there is none or the query fails |
| Staging.Store.InsertRecord | SerpAPI/src/supabase_client.py:52-114 | never mutates the caller's dict:<br>• an existing row without changes is returned unchanged;<br>• otherwise the timestamp-free copy is merged over the row and upserted on `account_id`;<br>• a failure leaves the table as it was and returns `None` |
| Staging.Store.DetectChanges | SerpAPI/src/supabase_client.py:74-89 | reports a change iff some shared key has a non-`None` new value unequal to the old one |
| Staging.Store.InsertHistoryRecord | SerpAPI/src/supabase_client.py:160-176 | appends the timestamp-free copy to the history and leaves the table alone |
| Staging.Store.GetUnsyncedRecords | SerpAPI/src/supabase_client.py:178-191 | returns only distinct `PENDING` rows, at most `limit`; fewer than `limit` means all pending rows |
| Staging.Store.UpdateSyncStatus | SerpAPI/src/supabase_client.py:193-205 | changes only `sync_status`, only on that account's row |
| Staging.Store.UpdateColumn | SerpAPI/src/migrations/update_price_format.py:84-91 | changes only the named column of that account's row |
| Staging.Store.GetEnrichmentStats | SerpAPI/src/supabase_client.py:140-158 | counts rows per status, with `UNKNOWN` for a missing status; the counts sum to the row count; a failed query gives `{}` |
| Staging.Store.GetAllAccountIds | SerpAPI/src/supabase_client.py:125-138 | every listed id is the `account_id` of its row, every row's `account_id` is listed, each once; a failed query lists none |
| Staging.TallyOfTallies | SerpAPI/src/supabase_client.py:150-153 | tallying rows gives, per status, the number of rows with it, summing to the number of rows |
| Staging.TallyStep | SerpAPI/src/supabase_client.py:152-153 | one more row adds one to its own status and nothing else |
| Enrichment.UpdateFields | SerpAPI/src/enrichment_service.py:98-117 | the payload has thirteen fields copied from the result, with the price cleaned to a picklist value |
| Enrichment.LogEntry | SerpAPI/src/enrichment_service.py:183-203 | the entry has `account_id` = the id and `sync_status` = `PENDING`; its result columns come from the data, and are all `None` when there is none |
| Enrichment.JudgeOutcomes | SerpAPI/src/enrichment_service.py:34-86 | status is never `SKIPPED`, since the query always ends in `"Restaurant"`:<br>• `ENRICHED` iff the score reaches 80;<br>• data is kept only with `ENRICHED` or `SKIPPED_SANITY_CHECK`;<br>• an exception, from building the query or from the search, yields `ERROR` with that exception's message and no data |
| Enrichment.EnrichmentService.Checked | SerpAPI/src/enrichment_service.py:41-82 | the search and the sanity check produce the verdict the judgement defines |
| Enrichment.EnrichmentService.LogResult | SerpAPI/src/enrichment_service.py:183-212 | the row is written before the history entry; never raises; no row is lost |
| Enrichment.EnrichmentService.EnrichAccount | SerpAPI/src/enrichment_service.py:19-86 | a staged account causes no search and no write; otherwise there is exactly one logged verdict and at most one search; either way the account is recorded as submitted once |
| Enrichment.EnrichmentService.Decide | SerpAPI/src/enrichment_service.py:34-82 | the verdict is the one `Judge` defines, and the query is searched only when it is built |
| ScriptEnrichment.BasePayload | scripts/serp-api/enrichment_service.py:187-203 | the payload copies the mapped fields and adds the prospection status only when it is truthy |
| ScriptEnrichment.Length | scripts/serp-api/enrichment_service.py:207 | `len` is defined on texts, lists and dicts, and raises on anything else |
| ScriptEnrichment.Clip | scripts/serp-api/enrichment_service.py:205-208 | a URL longer than 255 is cut to its first 255 characters; others are kept |
| ScriptEnrichment.DropNone | scripts/serp-api/enrichment_service.py:210-211 | keeps exactly the non-`None` entries |
| ScriptEnrichment.ClipUrls | scripts/serp-api/enrichment_service.py:205-208 | the two URL fields are clipped in order; the first `len` failure is raised |
| ScriptEnrichment.UpdatePayload | scripts/serp-api/enrichment_service.py:185-211 | raises exactly when clipping raises; otherwise it has no `None` values |
| ScriptEnrichment.PrepareUpdatePayload | scripts/serp-api/enrichment_service.py:185-211 | the method computes the payload the function defines |
| ScriptEnrichment.TruncateUrls | scripts/serp-api/enrichment_service.py:205-208 | the loop clips as the function defines |
| ScriptEnrichment.UpdatePayloadParts | scripts/serp-api/enrichment_service.py:185-211 | the payload is the clipped base payload without its `None` entries |
| ScriptEnrichment.PayloadHasNoNone | scripts/serp-api/enrichment_service.py:210-211 | no value of the payload is `None` |
| ScriptEnrichment.PayloadUrlsFit | scripts/serp-api/enrichment_service.py:205-208 | both URL fields are at most 255 characters |
| ScriptEnrichment.PayloadProspection | scripts/serp-api/enrichment_service.py:201-203 | the prospection status is present iff it is truthy in the record |
| ScriptEnrichment.PayloadCopies | scripts/serp-api/enrichment_service.py:187-200 | every other non-`None` field is copied unchanged |
| ScriptEnrichment.CountedAddsOne | scripts/serp-api/enrichment_service.py:43-46 | counting adds one to that status and leaves the others |
| ScriptEnrichment.PushedOutcomes | scripts/serp-api/enrichment_service.py:151-168 | the Salesforce update has three outcomes:<br>• success is counted `ENRICHED` and not marked;<br>• a false reply is logged `ERROR` and neither counted nor marked;<br>• an exception is logged `ERROR` and counted |
| ScriptEnrichment.CheckedOutcomes | scripts/serp-api/enrichment_service.py:120-168 | no result is `NO_RESULT` and a low score is `SKIPPED_SANITY_CHECK`, each counted and marked once; otherwise the update decides |
| ScriptEnrichment.EnrichmentOutcomes | scripts/serp-api/enrichment_service.py:90-173 | an excluded account is only counted `ALREADY_PROCESSED`; any other outcome logs exactly one CSV row |
| ScriptEnrichment.ScriptEnricher.GetStats | scripts/serp-api/enrichment_service.py:39-41 | returns the counters and changes nothing |
| ScriptEnrichment.ScriptEnricher.Count | scripts/serp-api/enrichment_service.py:43-46 | adds one to exactly one status |
| ScriptEnrichment.ScriptEnricher.LogCsv | scripts/serp-api/enrichment_service.py:256-275 | appends exactly one row |
| ScriptEnrichment.ScriptEnricher.MarkProcessed | scripts/serp-api/enrichment_service.py:60-68 | appends to the processed file only; the excluded set stays as loaded |
| ScriptEnrichment.ScriptEnricher.EnrichAccount | scripts/serp-api/enrichment_service.py:90-173 | counters, CSV rows and processed marks change exactly as the outcome defines |
| ScriptEnrichment.ScriptEnricher.CheckMatch | scripts/serp-api/enrichment_service.py:120-168 | the search-and-check part has the effect the outcome defines |
| ScriptEnrichment.ScriptEnricher.UpdateAccount | scripts/serp-api/enrichment_service.py:151-168 | the update part has the effect the outcome defines |
| ScriptEnrichment.ScriptEnricher.ApplyPayload | scripts/serp-api/enrichment_service.py:152-168 | with the payload prepared: a payload error is logged as an error, otherwise the push has the effect the outcome defines |
| Sync.SfPayload | SerpAPI/src/sync_service.py:66-84 | renames the staged columns to Salesforce fields, with the price cleaned by the sync copy to a picklist value |
| Sync.ColumnsAgree | SerpAPI/src/sync_service.py:70-83 | every field except price and thumbnail is read from the column that `_log_result` stages it in |
| Sync.StagedResultRoundTrip | SerpAPI/src/sync_service.py:66-84 | staging a result and building the payload gives back the result's fields; the price is cleaned |
| Sync.ThumbnailNeverStaged | SerpAPI/src/sync_service.py:82 | the thumbnail is always `None`, because it is never staged |
| Sync.ApplyFlagsEffect | SerpAPI/src/sync_service.py:33-62 | for distinct ids:<br>• each row takes its own status;<br>• rows without a status, and other rows, stay;<br>• the keys are kept |
| Sync.EveryRecordCounted | SerpAPI/src/sync_service.py:30-62 | successes plus failures equal the records with an id |
| Sync.ReplayEffect | SerpAPI/src/sync_service.py:33-62 | after the loop, each listed row carries its outcome unless its write failed; unlisted rows are unchanged |
| Sync.SyncPendingAccounts | SerpAPI/src/sync_service.py:15-64 | the batch holds distinct pending rows, at most `limit`:<br>• the table is updated row by row;<br>• success and failure count the outcomes and sum to the records with an id;<br>• an empty batch changes nothing |
| Sync.SyncBatch | SerpAPI/src/sync_service.py:30-64 | each record of the batch is replayed on the table in order; success and failure are the counts of synced and failed outcomes |
| Sync.SyncRecord | SerpAPI/src/sync_service.py:34-62 | in a dry run a record is `SYNCED`; otherwise `SYNCED` iff `update_account` returns true, else `ERROR`; only its `sync_status` changes |
| Paging.FetchLimit | SerpAPI/src/main.py:71-76 | 1000 with no limit; otherwise the smaller of 1000 and the remainder, and none once the remainder is ≤ 0; so the total never passes the limit |
| Paging.Cap | SerpAPI/src/main.py:64-104 | the accounts a run can submit: all of them, or the limit if smaller |
| Paging.Fetch | SerpAPI/src/main.py:79 | a page never holds more than was asked for |
| Paging.FetchNext | SerpAPI/src/main.py:96-97 | the page after the last id of the first k accounts is the next run of accounts from k |
| Paging.NextPage | SerpAPI/src/main.py:69-82 | the page read is the next run of accounts within the cap; the loop goes on only after a non-empty full page, from its last id; it stops short of the cap only on a fetch failure |
| SerpapiMain.Submit | SerpAPI/src/main.py:87-94 | submitting an account never loses a row, and leaves it staged unless its upsert fails; the account is the one next submitted |
| SerpapiMain.EnrichPage | SerpAPI/src/main.py:87-94 | the page's accounts are submitted exactly once each, in order, and nothing else is; each leaves its row unless its upsert fails |
| SerpapiMain.EnrichNextPage | SerpAPI/src/main.py:69-100 | the page is the next run of accounts, within the cap, and exactly its accounts are submitted, in order; the loop goes on only after a full page; a fetch failure ends it |
| SerpapiMain.RunEnrichment | SerpAPI/src/main.py:64-104 | the submitted accounts are exactly the dispatched ones, in order, each once; they are the id-ordered prefix, never past the limit, and with no fetch failure the whole cap |
| SerpapiMain.RunPipeline | SerpAPI/src/main.py:55-110 | sync-only mode searches and submits nothing; otherwise exactly the dispatched accounts are submitted, in order; sync runs with `limit` or 100; successes plus failures equal the synced records with an id |
| ScriptsMain.RunAppend | scripts/serp-api/main.py:56-88 | enriching two pages in turn is enriching their concatenation |
| ScriptsMain.RunRows | scripts/serp-api/enrichment_service.py:99-173 | one CSV row per non-excluded account, each naming a dispatched account |
| ScriptsMain.EnrichPage | scripts/serp-api/main.py:72-78 | the page's accounts are enriched once each, in order |
| ScriptsMain.EnrichNextPage | scripts/serp-api/main.py:57-84 | the page is the next run of accounts, within the cap, each enriched once |
| ScriptsMain.RunEnrichment | scripts/serp-api/main.py:52-88 | the dispatched accounts are the id-ordered prefix within the limit, each enriched once; with no fetch failure, the whole cap |
| Migration.MigratedRowEffect | SerpAPI/src/migrations/update_price_format.py:57-93 | a migrated row differs only in its price column:<br>• that column becomes the cleaned raw price, when there is one and it differs;<br>• an unparseable price is never cleared |
| Migration.MigratedRowSettled | SerpAPI/src/migrations/update_price_format.py:68-72 | a migrated row needs no further update |
| Migration.SecondRunUpdatesNothing | SerpAPI/src/migrations/update_price_format.py:68-93 | a second run over the migrated table updates nothing |
| Migration.CompleteRun | SerpAPI/src/migrations/update_price_format.py:93-96 | a full listing visits every row, and the updated count never exceeds the processed count |
| Migration.MigrateRow | SerpAPI/src/migrations/update_price_format.py:57-93 | rewrites the price iff it should be updated and the write succeeds |
| Migration.MigratePage | SerpAPI/src/migrations/update_price_format.py:57-93 | migrates every row of the page and counts those that needed it |
| Migration.MigrateNextPage | SerpAPI/src/migrations/update_price_format.py:46-99 | the next page starts at the offset; the loop continues only after a full page of 1000 |
| Migration.PageAccounted | SerpAPI/src/migrations/update_price_format.py:46-99 | the rows of a page are new to the run, and the migrations and the count of rewrites over the page add up with those before it |
| Migration.UpdatePriceFormat | SerpAPI/src/migrations/update_price_format.py:20-104 | the table ends up migrated on the visited rows and the updated count is the number that needed it; a complete run visits every row, with updated ≤ processed |
| CheckDatabase.RepeatedIff | SerpAPI/check_database.py:43 | an id counts more than once iff it sits at two positions |
| CheckDatabase.CountIds | SerpAPI/check_database.py:39-41 | counts each listed id's occurrences; the counts sum to the list length |
| CheckDatabase.DuplicatesListedTwice | SerpAPI/check_database.py:43-50 | duplicates are exactly the ids listed twice, and are empty iff the ids are distinct |
| CheckDatabase.Total | SerpAPI/check_database.py:21 | the total is the sum of the per-status counts |
| CheckDatabase.CheckDatabase | SerpAPI/check_database.py:9-50 | empty stats end the check before the duplicate step; otherwise the total is the row count and there are no duplicates, because the table is keyed by account id |

## Left out

- Network and library calls are not modelled; they are parameters of the model:
  - the SerpAPI `GoogleSearch` call;
  - the Supabase client;
  - `simple_salesforce`;
  - fuzzywuzzy's `token_sort_ratio`.
- `SerpAPI/src/salesforce_client.py` (SOQL text and HTTP wrappers) is not part of this model. The account query is a fixed, id-sorted sequence with non-empty ids.
- `SerpAPI/src/config.py` (environment and credential loading) is not part of this model.
- Concurrency is left out:
  - the `ThreadPoolExecutor` and the counter and CSV locks;
  - pages are dispatched sequentially, since per-account tasks touch different accounts.
- File I/O, logging and clocks are left out:
  - CSV writing is a list of rows;
  - the processed-ids file is a set loaded once plus an append-only list;
  - logging is dropped;
  - `date.today()` and `datetime.now()` are string parameters.
- Python builtins are simplified:
  - `str.lower` and the regex `\d` are ASCII-only, while `\s` and `str.strip` use the full `str.isspace` set;
  - `str()` of floats, lists and dicts is the `render` parameter;
  - a float is an exact `real`, and the migration's and database check's floating-point percentages and printing are out.
- Initialization failures in both `main.py` drivers are not modelled. The call at `scripts/serp-api/main.py:42` passes three arguments to an `__init__` that takes four (`scripts/serp-api/enrichment_service.py:26`). As written, that driver therefore always raises `TypeError` there and returns through lines 44-46, never reaching its loop. The model of its loop (`ScriptsMain`) is the loop the driver would run with a service built.
- `upsert_record` (SerpAPI/src/supabase_client.py:116-123) has no caller in the core; it is left out.
- `_prepare_update_payload` in the staged service (SerpAPI/src/enrichment_service.py:98-117) is modelled as `Enrichment.UpdateFields`, although `enrich_account` there never calls it.
- Enrichment.EnrichmentService.EnrichAccount: assumes the account `Id` is a text. A missing `Id` (a `KeyError` before the `try`) is not modelled.
- ScriptEnrichment.ScriptEnricher.EnrichAccount: assumes the account `Id` is a text, as above.
- Price.CleanPriceWith: does not model the `OverflowError` that `float(price)` raises on an `int` too large for a double, with magnitude at least 2^1024 - 2^970 (SerpAPI/src/enrichment_service.py:139, SerpAPI/src/sync_service.py:97, scripts/serp-api/enrichment_service.py:224). The model gives such an amount the tier `"$$$$"`. The source instead behaves as follows:
  - the sync marks the row `ERROR` and counts a failure;
  - the migration stops with "Migration Failed";
  - the script service logs and counts `ERROR`.
- Staging.Store.InsertRecord: assumes `account_id` is a text, so rows are keyed by it.
- The migration reads its pages as offset slices of a listing fixed for the run; updates do not reorder it. The page sizes and the updated count are returned instead of logged.
- SerpapiMain.RunEnrichment: any exception in the loop body is a fetch failure of that page, ending the loop.
- ScriptsMain.RunEnrichment: any exception in the loop body is a fetch failure of that page, as above.
- The sample-record listing at the end of `SerpAPI/check_database.py` (lines 52-73) is printing only; it is left out.
