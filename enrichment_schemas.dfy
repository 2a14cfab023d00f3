/**
 * The request, record and response shapes of the enrichment module, with the
 * field constraints the web layer enforces before a pipeline runs.
 */
module EnrichmentSchemas {
  import opened Wrappers
  import opened JobStatusEnum
  import opened JobResults
  import opened JobSchemas

  /**
   * An enrichment request: `itemIds` and `model` are required, `tone` and
   * `maxWords` have defaults.
   */
  datatype EnrichmentRequest = EnrichmentRequest(
    itemIds: seq<string>,
    model: string,
    tone: string := "helpful",
    maxWords: int := 60)

  /** The request passes validation: `maxWords` within [20, 120]; `itemIds` may be empty. */
  predicate ValidRequest(r: EnrichmentRequest) {
    20 <= r.maxWords <= 120
  }

  /** A request giving only the required fields gets tone "helpful" and 60 words, and is valid. */
  lemma DefaultRequestIsValid(ids: seq<string>, model: string)
    ensures EnrichmentRequest(ids, model).tone == "helpful"
    ensures EnrichmentRequest(ids, model).maxWords == 60
    ensures ValidRequest(EnrichmentRequest(ids, model))
  {
  }

  /** The word limit is the only constraint: an empty id list is valid, a limit outside [20, 120] is not. */
  lemma RequestBounds(r: EnrichmentRequest)
    ensures r.itemIds == [] && r.maxWords == 20 ==> ValidRequest(r)
    ensures r.maxWords == 19 || r.maxWords == 121 ==> !ValidRequest(r)
  {
  }

  /**
   * Only the word limit is validated: changing the ids, the model or the tone
   * never changes whether a request is accepted.
   */
  lemma ValidityIgnoresOtherFields(r: EnrichmentRequest, ids: seq<string>, model: string, tone: string)
    ensures ValidRequest(r.(itemIds := ids, model := model, tone := tone)) == ValidRequest(r)
  {
  }

  /** The accepted word limits form an interval. */
  lemma ValidLimitsAreAnInterval(r: EnrichmentRequest, lo: int, hi: int, k: int)
    requires ValidRequest(r.(maxWords := lo)) && ValidRequest(r.(maxWords := hi)) && lo <= k <= hi
    ensures ValidRequest(r.(maxWords := k))
  {
  }

  /** A stored enriched product; `createdAt` is optional. */
  datatype EnrichedProduct = EnrichedProduct(
    id: int,
    itemId: string,
    originalDescription: string,
    enrichedDescription: string,
    createdAt: Option<string> := None)

  /** A page of products with the total number of matches. */
  datatype EnrichedProductListResponse = EnrichedProductListResponse(count: int, items: seq<EnrichedProduct>)

  /** The enqueue response; here `status` is a plain string. */
  datatype JobEnqueueResponse = JobEnqueueResponse(jobId: string, status: string, message: string)

  /** A job summary; `status` is a plain string, every optional field defaults to `None`. */
  datatype JobSummaryResponse = JobSummaryResponse(
    id: string,
    status: string,
    detail: Option<string> := None,
    startedAt: Option<string> := None,
    finishedAt: Option<string> := None,
    durationSeconds: Option<real> := None,
    totalTasks: Option<int> := None)

  /** A job detail: the summary's fields plus `result`, which defaults to `None`. */
  datatype JobDetailResponse = JobDetailResponse(
    id: string,
    status: string,
    detail: Option<string> := None,
    result: JobResult := NoResult,
    startedAt: Option<string> := None,
    finishedAt: Option<string> := None,
    durationSeconds: Option<real> := None,
    totalTasks: Option<int> := None)
}
