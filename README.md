# Product description jobs: a Dafny model

The modelled service fetches MercadoLibre item descriptions ("extraction") and rewrites them with a language model ("enrichment"). Both run as background jobs. The model covers four parts:

- **Job registry.** An in-memory `JobManager` keeps jobs by id, plus a map from idempotency key to job id. `create` reuses the job a known key points to. `update_status` copies the stored record, overwrites some fields, keeps others when the argument is falsy or `None`, and writes the copy back.
- **Extraction pipeline.** One fetch per item id, in order. A marketplace error becomes an `{id, error}` entry. The pipeline then computes counts, builds a summary line, and issues two registry updates.
- **Enrichment pipeline.**
  - A model-name check, with and without the `models/` prefix.
  - Prompt construction: first-match attribute lookup and a 400-character cut of the description.
  - Two phases, fetch then generate, then one bulk insert when something was enriched.
  - A terminal state chosen by the kind of exception raised.
- **Supporting logic.**
  - The Gemini client's error classification, its retry-hint scan, and the assembly of a reply from response parts.
  - The exception shapes.
  - The search query's WHERE clause and parameter builder, and the per-row defaults of `insert_many`.
  - The request and response schemas.

## Modelling choices

- **What runs step by step is imperative.** `JobManager` is a class with the maps `jobs` and `keys` and the id sequence `order` (insertion order of the `_jobs` dict). The table of enriched products is the class `ProductStore`, whose `rows` stand for the SQLite table. Each loop in the source is a `while` loop proved against a specification function:
  - `FetchEntries`, `FetchDescriptions`, `GenerateDescriptions`
  - `ScanRetryHint`, `CollectParts`
  - `ProductStore.InsertMany`

  `search` builds its conditions with three `if`s and no loop. `BuildSearch` and `FilterConditions` do the same appends in the same order, and are proved against `Conditions` and `FilterParams`.
- **Each pipeline is a method plus a plan.** `Extract` and `Enrich` take the registry (and the store) and issue the same sequence of `update_status` calls as the source. The pure functions `ExtractPlan` and `EnrichPlan` return that sequence, whether an insert happened, and the exception that escapes. Each method's `ensures` ties the registry after the call to `ApplyAll(old table, job id, plan.updates)`, and the lemmas about the runs are stated over the plans.
- **Collaborators are oracles.** The marketplace client is a function from (call number, item id) to a payload or a raised exception. The language model is a function from (call number, prompt) to a text or a raised exception. The model listing is one outcome value.
- **Clocks and ids are parameters.** Clock readings are opaque non-empty timestamps: one for the start, one for the finish, one per generated record. The measured duration is a single `real`. `uuid4` is a fresh id that is not yet a key of the table.
- **Exceptions are a closed datatype `Exc`:**
  - `GeminiServiceError`
  - `GeminiRateLimitError`, with an optional retry hint
  - `MeliExtractError`
  - `ValueError`, with an optional second argument
  - any other exception, by type name and message

  `Str` is Python's `str(e)`.
- **Duplicate ids are kept.** Nothing removes them. Each occurrence is fetched, and enriched, on its own, and in its own position.

### Where the code is followed over what a reader might expect

- `update_status` never looks at the current status, so the registry accepts backward transitions (`RegistryAcceptsBackwardTransition`). "Forward only" is a property of the call sequences the two pipelines issue (`ExtractTraceForwardOnly`, `EnrichTraceForwardOnly`).
- `extract` catches only `MeliExtractError`. Any other fetch exception escapes and leaves the job `running` (`ExtractLeavesRunning`).
- `filter(None, ...)` in `_build_prompt` drops nothing, because each f-string is non-empty. A missing brand, model or color therefore prints as `None` (`SpecLineHasThreeParts`).
- The rate-limit handler reads `retry_after_seconds` with a default of `'unknown'`. The attribute always exists, so a missing hint prints `None`, giving "Retry after Nones" (`QuotaWithoutHint`).
- Any `ValueError` records `duration_seconds = 0.0`, even one raised after the job started running (`RaisedPicksHandler`).
- Suppose `_check_models` fails with something other than `ValueError`, such as an error from the model listing. Its handler then reads `start_time` before it is assigned, so the handler itself raises `UnboundLocalError`. No update is issued and the job stays `pending` (`ListingFailureLeavesJob`).
- The docstring of the repository's `get` says "latest match". The statement behind it has no `ORDER BY` and reads the first row. The model returns the first stored row with that item id (`Repository.FirstWithItemId`).
- A `ValueError` built with two arguments prints as the tuple of both. So the failed-check detail is `("Model 'x' not available", ['models/...', ...])`, not the message alone (`UnlistedModelMessage`).

## Model

| member | source | states |
|---|---|---|
| JobStatusEnum.AllStatuses | src/services/jobs/enums.py:4-10 | There are exactly four statuses, in declaration order, with pairwise distinct string values. |
| JobStatusEnum.FromValue | src/services/jobs/enums.py:4-10 | A string maps to the member whose value it is, or to nothing when no member has that value. |
| JobStatusEnum.ValueRoundTrip | src/services/jobs/enums.py:7-10 | Every member is recovered from its own string value. |
| JobSchemas.NewJobDefaults | src/services/jobs/schemas.py:11-18 | A job built from an id alone is pending, has detail "" and no result, and every optional field is unset. |
| JobRegistry.JobManager.constructor | src/services/jobs/service.py:13-16 | A new registry has no jobs, no keys and an empty order. |
| JobRegistry.JobManager.JobForKey | src/services/jobs/service.py:47-55 | A falsy key finds nothing. A found job is the stored job that the key maps to, and a key mapped to a stored, non-empty id finds it. |
| JobRegistry.JobManager.MakeNewJob | src/services/jobs/service.py:37-45 | Stores exactly one pending job under the fresh id, appends it to the order, and leaves the keys alone. |
| JobRegistry.JobManager.Create | src/services/jobs/service.py:18-35 | If the key finds a job, that job is returned as not created and nothing changes. Otherwise exactly one new pending job is stored and returned as created, and only a truthy key is mapped to its id. |
| JobRegistry.JobManager.SetStatus | src/services/jobs/service.py:57-61 | Replaces the record of a stored id and is a no-op for an unknown id. Keys and order are unchanged. |
| JobRegistry.JobManager.UpdateStatus | src/services/jobs/service.py:63-97 | The table becomes `Step(old table, id, update)`; an unknown id is a no-op. Keys and order are unchanged. |
| JobRegistry.JobManager.Get | src/services/jobs/service.py:111-114 | Returns the stored record exactly when the id is stored, and nothing otherwise. |
| JobRegistry.JobManager.List | src/services/jobs/service.py:116-119 | Lists every stored job once, in creation order. |
| JobRegistry.ApplyOverwrites | src/services/jobs/service.py:80-95 | `status`, `detail` and `result` are always overwritten. The timestamps are kept unless the argument is truthy, so an empty string keeps them. Duration and task count are kept only when the argument is `None`. A truthy timestamp replaces the stored one, and so does a duration or task count that is not `None`, 0 included. |
| JobRegistry.ApplyIdempotent | src/services/jobs/service.py:80-97 | Applying the same update twice gives the same record as applying it once. |
| JobRegistry.RegistryAcceptsBackwardTransition | src/services/jobs/service.py:80-83 | A completed job can be set back to pending. |
| JobRegistry.ApplyAllTouchesOnlyId | src/services/jobs/service.py:76-97 | Updates on one id keep the set of ids and every other record, and never change the record's id. Updates on an unknown id change nothing. |
| JobRegistry.ApplyAllAppend | src/services/jobs/service.py:63-97 | Running two update sequences one after the other equals running their concatenation. |
| JobRegistry.ApplyAllLast | src/services/jobs/service.py:80-83 | After a non-empty sequence of updates, status, detail and result are those of the last update. |
| JobRegistry.CreateTwiceWithKey | src/services/jobs/service.py:18-55 | With the same truthy key, the second `create` returns the first call's job, not created, and only one job is added. |
| JobRegistry.CreateTwiceWithoutKey | src/services/jobs/service.py:18-45 | Without a key, two `create` calls add two distinct pending jobs in order and leave the keys alone. |
| Exceptions.RateLimitErrorShape | src/services/llm/exceptions.py:1-8 | A rate-limit error is a service error and prints as its message. Its hint defaults to `None` (printed "None") and is otherwise kept as given. |
| Gemini.FirstRetryHintIsFirstMatch | src/services/llm/gemini.py:58-66 | The hint comes from the first token that ends in "s." and whose numeral is digits after one '.' is removed and that `float` reads. It is absent exactly when no token qualifies. |
| Gemini.RemoveFirstDotCount | src/services/llm/gemini.py:61 | `replace(".", "", 1)` removes one '.' if there is one, and nothing else. |
| Gemini.RetryTokenNumeral | src/services/llm/gemini.py:61-63 | An accepted token's numeral is ASCII digits with at most one '.', and at least one digit. |
| Gemini.FirstRetryHintWellFormed | src/services/llm/gemini.py:58-66 | Every hint the scan returns is such a numeral. |
| Gemini.QuotaMessageExample | src/services/llm/gemini.py:58-66 | The tokens of "Quota exceeded. Retry in 7.50s." give the hint 7.50, printed as "7.5". |
| Gemini.ScanRetryHint | src/services/llm/gemini.py:58-66 | The loop with `break` returns the first-match hint of the message's whitespace tokens. |
| Gemini.WrapGenerateError | src/services/llm/gemini.py:53-71 | A message containing "RESOURCE_EXHAUSTED", or "quota" in any case, gives a rate-limit error with the scanned hint. Any other message gives a service error. Both are service errors that print as the message. |
| Gemini.StringTextsCount | src/services/llm/gemini.py:44-48 | Every collected text is the string text of some part, and there are no more texts than parts. |
| Gemini.CollectParts | src/services/llm/gemini.py:42-49 | The nested loops collect the string texts of all parts, candidate by candidate and part by part; no candidates gives none. |
| Gemini.ReplyText | src/services/llm/gemini.py:40-51 | Returns a non-empty `text` stripped, or else the collected parts joined by spaces and stripped. The result never begins or ends with whitespace. |
| Gemini.ReplyWithoutParts | src/services/llm/gemini.py:49-51 | With no text and no parts the reply is "". |
| Gemini.ModelNames | src/services/llm/gemini.py:77-79 | One name per listed model, in listing order; an empty listing gives []. |
| Repository.BuildSearch | src/modules/enrichment/db/repository.py:61-91 | Builds the WHERE clause from the truthy filters' conditions, with their parameters in the same order. The search binds those parameters plus limit and offset, and the count binds them alone. Each statement has exactly as many '?' as it has bindings. |
| Repository.FilterConditions | src/modules/enrichment/db/repository.py:71-85 | The appends give exactly the conditions and the parameters of the truthy filters, in the order text, from, to. |
| Repository.FilterSteps | src/modules/enrichment/db/repository.py:74-85 | Each filter appends its condition and parameters after those of the filters that come before it. |
| Repository.WhereClauseShape | src/modules/enrichment/db/repository.py:74-87 | The clause is "" exactly when no filter is truthy, and otherwise starts with "WHERE ". |
| Repository.EmptyFilterIsAbsent | src/modules/enrichment/db/repository.py:74-85 | An empty-string filter gives the same conditions and parameters as an absent one. |
| Repository.TextFilterParams | src/modules/enrichment/db/repository.py:74-77 | A text filter contributes the first condition and two identical "%q%" parameters. |
| Repository.AllFiltersClause | src/modules/enrichment/db/repository.py:74-87 | With all three filters, the conditions appear as text, from, to, joined by " AND ", and the parameters follow in the same order. |
| Repository.PlaceholdersMatchParams | src/modules/enrichment/db/repository.py:71-90 | The number of '?' in the WHERE clause equals the number of filter parameters, for every combination of filters. |
| Repository.SearchHeadPlaceholders | src/modules/enrichment/db/queries.py:27-30 | The search template has no '?' before its `{where_clause}` hole. |
| Repository.SearchTailPlaceholders | src/modules/enrichment/db/queries.py:30-33 | The search template has two '?' after its hole, for limit and offset. |
| Repository.CountTemplatePlaceholders | src/modules/enrichment/db/queries.py:35-38 | The count template has no '?' of its own. |
| Repository.TemplatePlaceholders | src/modules/enrichment/db/queries.py:27-38 | Filling the hole adds the clause's '?' to the template's own. |
| Repository.RowsForAt | src/modules/enrichment/db/repository.py:28-40 | Row k is item k's row under id first + k. Missing fields become "", and `created_at` is never empty. |
| Repository.RecordStoredVerbatim | src/modules/enrichment/db/repository.py:30-38 | A record with all four fields and a non-empty `created_at` is stored exactly as given. |
| Repository.FirstWithItemId | src/modules/enrichment/db/repository.py:50-59 | Returns nothing exactly when no row has the item id; otherwise the first such row. |
| Repository.ProductStore.InsertMany | src/modules/enrichment/db/repository.py:25-40 | Appends one row per item, in order, under consecutive new ids, with the per-row defaults. |
| Repository.ProductStore.Get | src/modules/enrichment/db/repository.py:50-59 | Returns nothing exactly when no stored row has the item id; otherwise a stored row with that id. |
| EnrichmentSchemas.DefaultRequestIsValid | src/modules/enrichment/schemas.py:4-14 | A request with only ids and a model gets tone "helpful" and 60 words, and is valid. |
| EnrichmentSchemas.RequestBounds | src/modules/enrichment/schemas.py:7-13 | An empty id list is valid; 19 and 121 words are rejected. |
| EnrichmentSchemas.ValidityIgnoresOtherFields | src/modules/enrichment/schemas.py:7-13 | For every request, changing the ids, the model or the tone never changes whether it is accepted. |
| EnrichmentSchemas.ValidLimitsAreAnInterval | src/modules/enrichment/schemas.py:7-13 | The accepted word limits form an interval: any limit between two accepted ones is accepted. |
| ExtractSchemas.ValidIffSomeId | src/modules/extract/schemas.py:5-11 | For every request, it is accepted exactly when it names an id, and adding ids keeps it accepted. |
| ExtractSchemas.RequestNeedsAnId | src/modules/extract/schemas.py:5-11 | An empty id list is rejected and one id is accepted. |
| ExtractSchemas.EnqueueStatusIsAStatus | src/modules/extract/schemas.py:14-25 | The enqueue status is one of the four statuses and round-trips through its string. |
| ExtractSchemas.ResponseDefaults | src/modules/extract/schemas.py:28-89 | Every optional summary field defaults to `None`, and so does the detail's `result`. |
| ExtractPipeline.DescriptionOf | src/modules/extract/service.py:44-50 | A non-empty `plain_text` wins. Otherwise `text`, where missing gives "" and null gives `None`. |
| ExtractPipeline.EntriesPerItem | src/modules/extract/service.py:40-53 | The loop completes exactly when no fetch raises anything but a marketplace error. It then has one entry per id, in input order, and an entry is an error exactly when its fetch raised. |
| ExtractPipeline.EntriesFirstUncaught | src/modules/extract/service.py:41-53 | An escaping exception is the first fetch exception that is not a marketplace error. |
| ExtractPipeline.CountsAddUp | src/modules/extract/service.py:57-58 | Errors plus successes equal the number of entries. |
| ExtractPipeline.FetchEntries | src/modules/extract/service.py:40-53 | The loop returns the specified entries, or the escaping exception. |
| ExtractPipeline.Extract | src/modules/extract/service.py:25-68 | The registry receives exactly the plan's updates on the job, the plan's exception escapes, and keys and order are unchanged. |
| ExtractPipeline.ExtractCompletes | src/modules/extract/service.py:55-68 | With no escaping exception the job ends completed, with the summary detail and the entries. Start time and task count are kept, and finish time and duration are set. |
| ExtractPipeline.ExtractLeavesRunning | src/modules/extract/service.py:28-53 | With an escaping exception the job stays running, with the first update's fields, and the exception escapes. |
| ExtractPipeline.ExtractTraceForwardOnly | src/modules/extract/service.py:25-68 | Starting from pending, the statuses set never go back. |
| ExtractPipeline.SummaryCounts | src/modules/extract/service.py:57-59 | The detail is "Completed successfully. processed=N success=S errors=E" with S + E = N = the number of ids. |
| ExtractPipeline.AllFailedStillCompletes | src/modules/extract/service.py:40-68 | When every fetch fails with a marketplace error, the run still completes, with errors = N. |
| ExtractPipeline.AllFailedCount | src/modules/extract/service.py:57 | All-error entries count as all errors. |
| ExtractPipeline.MiddleItemFails | src/modules/extract/service.py:40-59 | For A, B, C with B failing, B's error does not stop C: three entries in order, and "processed=3 success=2 errors=1". |
| ExtractPipeline.SummaryOf | src/modules/extract/service.py:73-82 | The summary carries the job's id, status, detail, times, duration and task count. |
| ExtractPipeline.ListExtractions | src/modules/extract/service.py:70-84 | One summary per stored job, in creation order. |
| ExtractPipeline.GetExtraction | src/modules/extract/service.py:86-103 | Returns nothing exactly for an unknown id; otherwise every field of the stored job, including the result. |
| EnrichmentPipeline.CheckModels | src/modules/enrichment/service.py:161-168 | Succeeds exactly when the listing succeeded and the model is available. A listing failure propagates, and an unavailable model raises the not-available `ValueError`, which carries the listing. |
| EnrichmentPipeline.PrefixedNameCheckedAsGiven | src/modules/enrichment/service.py:163-166 | A name already starting with "models/" is accepted only if listed as given. |
| EnrichmentPipeline.BareNameMatchesPrefixed | src/modules/enrichment/service.py:164-166 | A bare name is accepted when only its "models/" form is listed, and rejected by an empty listing. |
| EnrichmentPipeline.FirstValueIsFirstMatch | src/modules/enrichment/service.py:41-55 | The value comes from the first attribute with a matching id, whatever later ones hold, and is `None` when none matches. |
| EnrichmentPipeline.SpecLineHasThreeParts | src/modules/enrichment/service.py:56-58 | The spec line is always "brand: B, model: M, color: C", with a missing value printed "None". |
| EnrichmentPipeline.PipelineSpecLine | src/modules/enrichment/service.py:184-201 | Pipeline items carry no attributes, so their spec line is "brand: None, model: None, color: None". |
| EnrichmentPipeline.Trimmed | src/modules/enrichment/service.py:59 | `[:400]` is a prefix of at most 400 characters: the whole text when it is short enough, and exactly its first 400 characters otherwise. |
| EnrichmentPipeline.BuildPrompt | src/modules/enrichment/service.py:60-66 | The prompt ends with the trimmed description. |
| EnrichmentPipeline.PromptEmbedsTone | src/modules/enrichment/service.py:61 | The prompt contains the tone. |
| EnrichmentPipeline.PromptEmbedsWordLimit | src/modules/enrichment/service.py:61 | The prompt contains the word limit in decimal. |
| EnrichmentPipeline.PromptSeesFirst400 | src/modules/enrichment/service.py:59-66 | Descriptions that agree on their first 400 characters give the same prompt. |
| EnrichmentPipeline.DescriptionText | src/modules/enrichment/service.py:188 | A non-empty `plain_text` wins; otherwise a non-empty `text` is used; "" only when neither field has a non-empty text. |
| EnrichmentPipeline.DescriptionTextAgrees | src/modules/enrichment/service.py:188 | Enrichment reads the same description text as extraction (src/modules/extract/service.py:44-50); only its final `or ""` turns a null `text` into "". |
| EnrichmentPipeline.FetchPhaseOkIff | src/modules/enrichment/service.py:183-197 | The fetch loop completes exactly when no fetch raises anything but a marketplace error. |
| EnrichmentPipeline.FetchPhaseCounts | src/modules/enrichment/service.py:183-197 | One item per fetched id and one error per failed id; together they account for every id. |
| EnrichmentPipeline.FetchPhaseItemAt | src/modules/enrichment/service.py:183-197 | A fetched id's item (id and description) sits at the position given by the ids fetched before it, so the items keep input order. |
| EnrichmentPipeline.FetchPhaseErrorAt | src/modules/enrichment/service.py:192-195 | A failed id's `{id, str(e)}` sits at the position given by the ids that failed before it, and it is not sent on for generation. |
| EnrichmentPipeline.FetchDescriptions | src/modules/enrichment/service.py:180-197 | The fetch loop returns the specified items and errors, or the escaping exception. |
| EnrichmentPipeline.GeneratePhaseOkIff | src/modules/enrichment/service.py:199-214 | The generate loop completes exactly when every call returns. |
| EnrichmentPipeline.GeneratePhasePerItem | src/modules/enrichment/service.py:199-214 | One record per fetched item, in order. Each has the item's id and description, the text of its own generate call and its own timestamp. |
| EnrichmentPipeline.GeneratePhaseFirstRaise | src/modules/enrichment/service.py:200-203 | The escaping exception is that of the first generate call that raised: every earlier call returned a text. |
| EnrichmentPipeline.GenerateDescriptions | src/modules/enrichment/service.py:199-214 | The generate loop returns the specified records, or the first exception. |
| EnrichmentPipeline.InsertItems | src/modules/enrichment/service.py:207-217 | One insert dict per record, in order, holding the record's four fields. |
| EnrichmentPipeline.EnrichFromIds | src/modules/enrichment/service.py:175-220 | Returns the fetch then generate result. `insert_many` is called exactly when both loops returned and something was enriched, and then appends exactly those rows. |
| EnrichmentPipeline.PersistedRowsAreRecords | src/modules/enrichment/service.py:207-217 | Each persisted row is its record verbatim, under consecutive ids. |
| EnrichmentPipeline.Enrich | src/modules/enrichment/service.py:68-152 | The registry receives exactly the plan's updates on the job, and the table exactly the persisted rows or none. Keys and order are unchanged, and the plan's exception escapes. |
| EnrichmentPipeline.CheckFailureFailsAtOnce | src/modules/enrichment/service.py:71-141 | A failed check with a `ValueError` gives one update: failed, detail `str(e)`, duration 0.0, no result. There is no running update and no insert. |
| EnrichmentPipeline.CheckFailureFetchesNothing | src/modules/enrichment/service.py:71-90 | After a failed check the run does not depend on the marketplace or the model, so nothing is fetched or generated. |
| EnrichmentPipeline.UnlistedModelMessage | src/modules/enrichment/service.py:166-168 | An unlisted model's detail is the printed two-argument `ValueError`: the message and the listing. |
| EnrichmentPipeline.ListingFailureLeavesJob | src/modules/enrichment/service.py:115-152 | A listing failure other than `ValueError` issues no update and raises `UnboundLocalError`, so the job is unchanged. |
| EnrichmentPipeline.PassedCheckRunsThenEnds | src/modules/enrichment/service.py:71-113 | A passed check gives the running update ("Processing", start time, N tasks) followed by exactly one terminal update, and nothing escapes. |
| EnrichmentPipeline.EnrichedOrNot | src/modules/enrichment/service.py:94-113 | With nothing enriched: failed, "No items enriched", the fetch errors. Otherwise: completed, detail "", the records, finish time and duration. |
| EnrichmentPipeline.RaisedPicksHandler | src/modules/enrichment/service.py:115-152 | An exception from the loops ends the job failed, with no insert. A rate limit gives the quota detail with the hint and `[{message: str(e)}]`. A `ValueError` gives duration 0.0. Anything else gives `str(e)` and no result. |
| EnrichmentPipeline.EnrichCompletes | src/modules/enrichment/service.py:71-113 | A run that enriched something leaves the job completed with the records, the start time and task count of the running update, the finish time and the duration. |
| EnrichmentPipeline.EnrichFails | src/modules/enrichment/service.py:94-152 | A run that passed the check but enriched nothing, or raised in its loops, leaves the job failed with the handler's detail, result and duration, keeping start time and task count. |
| EnrichmentPipeline.QuotaWithoutHint | src/modules/enrichment/service.py:121 | A rate limit without a hint reports "Retry after Nones". |
| EnrichmentPipeline.InsertIffEnriched | src/modules/enrichment/service.py:199-220 | An insert happens exactly when the check passed, both loops returned and something was enriched. |
| EnrichmentPipeline.EnrichedRecordsPerItem | src/modules/enrichment/service.py:183-214 | A completed run's records are one per fetched item, in fetch order, each with its own generated text; its errors are the fetch errors. |
| EnrichmentPipeline.EnrichTraceForwardOnly | src/modules/enrichment/service.py:68-152 | Starting from pending, the statuses set never go back. |
| EnrichmentPipeline.SummaryOf | src/modules/enrichment/service.py:233-241 | The summary carries the job's fields, with the status as its string value. |
| EnrichmentPipeline.ListEnrichments | src/modules/enrichment/service.py:229-243 | One summary per stored job, in creation order. |
| EnrichmentPipeline.GetEnrichment | src/modules/enrichment/service.py:245-262 | Returns nothing exactly for an unknown id; otherwise every field of the stored job, including the result. |

## Left out

- **Concurrency.** Background-task scheduling and concurrent access to the registry are left out. The code has no lock, and all calls are modelled as sequential.
- **HTTP routes, application bootstrap, settings and the registry singleton.** The routes' "schedule the pipeline only when `create` reported a new job" is not modelled.
- **Marketplace client.** The HTTP client with OAuth refresh is an oracle. src/services/mercadolibre/exceptions.py is not part of this model: `str(e)` of a `MeliExtractError` is taken to be its message.
- **Gemini SDK calls.** `genai.Client`, `generate_content` and `models.list` are oracles, and so is the client's constructor. The generator oracle returns the reply text that `ReplyText` assembles.
- **`list_models` of the enrichment service.** It only forwards to the client, and is the listing oracle here.
- **SQLite.** Left out:
  - connections, table creation and statement execution
  - `ORDER BY`, `LIMIT` and `OFFSET` evaluation, and `search`'s result rows and total
  - `list()` and `load_last_enriched`
  - database errors and rollback

  The query texts are templates with a hole for the WHERE clause.
- **pydantic validation.** Field validation runs in the web layer. The constraints are predicates (`ValidRequest`), and the pipelines do not require them, as the services do not check them. Unknown extra fields (`extra = "ignore"`) are not modelled.
- **Floats.**
  - Durations are one opaque `real` per run.
  - A retry hint is kept as the numeral it was parsed from, and printed by a normalised decimal rule.
  - Exponent forms of Python's float printing are not produced.
  - The non-ASCII decimal digits that `float` accepts (Arabic-Indic and others) are treated as non-digits by the retry scan. The superscript, subscript and circled digits are modelled: `isdigit` accepts them and `float` rejects them.
- Exceptions.FloatText: does not round to double precision. A numeral with more significant digits than a double holds is printed as written: for the token "1.00000000000000001s." Python's detail reads "Retry after 1.0s", while the model's reads "Retry after 1.00000000000000001s". Binary floating point is not modelled.
- **Python's `repr`.** `repr` of strings covers quotes, backslashes, `\n`, `\r` and `\t`; other escapes of non-printable characters are not produced.
- **Clocks and `uuid4`.** They are parameters, as described above.
- **Logging.**
