/** The request and response shapes of the extraction module. */
module ExtractSchemas {
  import opened Wrappers
  import opened JobStatusEnum
  import opened JobResults

  /** An extraction request: the item ids to describe. */
  datatype ItemDescriptionsRequest = ItemDescriptionsRequest(itemIds: seq<string>)

  /** The request passes validation: at least one id. */
  predicate ValidRequest(r: ItemDescriptionsRequest) {
    |r.itemIds| >= 1
  }

  /** The enqueue response; `status` is a `JobStatus`, so one of the four statuses. */
  datatype JobEnqueueResponse = JobEnqueueResponse(jobId: string, status: JobStatus, message: string)

  /** A job summary; every optional field defaults to `None`. */
  datatype JobSummaryResponse = JobSummaryResponse(
    id: string,
    status: JobStatus,
    detail: Option<string> := None,
    startedAt: Option<string> := None,
    finishedAt: Option<string> := None,
    durationSeconds: Option<real> := None,
    totalTasks: Option<int> := None)

  /** A job detail: the summary's fields plus `result`, which defaults to `None`. */
  datatype JobDetailResponse = JobDetailResponse(
    id: string,
    status: JobStatus,
    detail: Option<string> := None,
    result: JobResult := NoResult,
    startedAt: Option<string> := None,
    finishedAt: Option<string> := None,
    durationSeconds: Option<real> := None,
    totalTasks: Option<int> := None)

  /** An empty id list is rejected; a single id is accepted. */
  lemma RequestNeedsAnId(id: string)
    ensures !ValidRequest(ItemDescriptionsRequest([]))
    ensures ValidRequest(ItemDescriptionsRequest([id]))
  {
  }

  /** A request is accepted exactly when it names an id, and adding ids keeps it accepted. */
  lemma ValidIffSomeId(r: ItemDescriptionsRequest, more: seq<string>)
    ensures ValidRequest(r) <==> r.itemIds != []
    ensures ValidRequest(r) ==> ValidRequest(ItemDescriptionsRequest(r.itemIds + more))
  {
  }

  /** An enqueue response's status serialises to one of the four status strings. */
  lemma EnqueueStatusIsAStatus(r: JobEnqueueResponse)
    ensures Value(r.status) in ["pending", "running", "completed", "failed"]
    ensures FromValue(Value(r.status)) == Some(r.status)
  {
  }

  /** The defaults of the optional fields. */
  lemma ResponseDefaults(id: string, s: JobStatus)
    ensures JobSummaryResponse(id, s) == JobSummaryResponse(id, s, None, None, None, None, None)
    ensures JobDetailResponse(id, s).result == NoResult && JobDetailResponse(id, s).detail == None
  {
  }
}
