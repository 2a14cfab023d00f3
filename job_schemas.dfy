/** The job record held by the registry. */
module JobSchemas {
  import opened Wrappers
  import opened JobStatusEnum
  import opened JobResults

  /**
   * A background job. `id` has no default; every other field defaults as the
   * record declares, so `Job(id)` is a fresh pending job. Durations are kept
   * as exact reals: the model only stores and copies them.
   */
  datatype Job = Job(
    id: string,
    status: JobStatus := Pending,
    detail: string := "",
    result: JobResult := NoResult,
    startedAt: Option<string> := None,
    finishedAt: Option<string> := None,
    durationSeconds: Option<real> := None,
    totalTasks: Option<int> := None)

  /** A job built from an id alone is pending, with an empty detail and every optional field unset. */
  lemma NewJobDefaults(id: string)
    ensures Job(id).id == id && Job(id).status == Pending && Job(id).detail == "" && Job(id).result == NoResult
    ensures Job(id).startedAt == None && Job(id).finishedAt == None
    ensures Job(id).durationSeconds == None && Job(id).totalTasks == None
  {
  }
}
