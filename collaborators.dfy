/**
 * What the pipelines receive from the systems around them, as oracle values:
 * the marketplace client, the language-model client, and the clock.
 */
module Collaborators {
  import opened Wrappers
  import opened Exceptions

  /** An ISO timestamp from the clock (`datetime.isoformat()`): opaque, never empty. */
  type Timestamp = s: string | s != [] witness "1970-01-01T00:00:00+00:00"

  /** One field of the marketplace's item-description JSON. */
  datatype JsonField = Missing | Null | JsonText(s: string)

  /** The fields of a description payload the core reads. */
  datatype DescriptionPayload = DescriptionPayload(plainText: JsonField, text: JsonField)

  /** One call of `extract_item_description`: the payload, or the exception raised. */
  datatype FetchOutcome = Fetched(payload: DescriptionPayload) | FetchRaised(error: Exc)

  /** The marketplace client: its k-th call, for item id x, behaves as `fetch(k, x)`. */
  type Fetcher = (nat, string) -> FetchOutcome

  /** One call of the language model's `generate`: the text, or the exception raised. */
  datatype GenerateOutcome = Generated(text: string) | GenerateRaised(error: Exc)

  /** The language-model client: its k-th `generate` call, with prompt p, behaves as `generate(k, p)`. */
  type Generator = (nat, string) -> GenerateOutcome

  /** The model listing: the names, or the exception raised. */
  datatype ModelListing = Listed(names: seq<string>) | ListRaised(error: Exc)
}
