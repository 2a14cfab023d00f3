/**
 * The shapes a job's `result` takes. The registry stores whatever a pipeline
 * passes; these are the payloads the two pipelines build.
 */
module JobResults {
  import opened Wrappers

  /**
   * One entry of an extraction result: `{id, description}` for a fetched item
   * or `{id, error}` for one whose fetch failed. The description is `None`
   * when the payload carries `"text": null` and no usable `plain_text`.
   */
  datatype ExtractEntry =
    | Described(id: string, description: Option<string>)
    | ExtractFailed(id: string, error: string)

  /** `{id, error}`: an item whose description could not be fetched during enrichment. */
  datatype ItemError = ItemError(id: string, error: string)

  /** `{item_id, original_description, enriched_description, created_at}`. */
  datatype EnrichedRecord = EnrichedRecord(
    itemId: string,
    originalDescription: string,
    enrichedDescription: string,
    createdAt: string)

  /** The `result` field of a job. */
  datatype JobResult =
    | NoResult                                    // None
    | ExtractionResults(entries: seq<ExtractEntry>)
    | EnrichedItems(items: seq<EnrichedRecord>)
    | FetchErrors(errors: seq<ItemError>)         // {"errors": [{id, error}, ...]}
    | ErrorMessages(messages: seq<string>)        // {"errors": [{"message": m}, ...]}
}
