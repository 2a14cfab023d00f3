/**
 * The enrichment job: check that the requested model is listed, mark the job
 * running, fetch every item's description, generate an enriched description
 * for each fetched item, persist the results, and end the job in a terminal
 * state chosen by what happened (or by the exception that was raised).
 */
module EnrichmentPipeline {
  import opened Wrappers
  import opened Text
  import opened JobStatusEnum
  import opened JobResults
  import opened JobSchemas
  import opened Exceptions
  import opened Collaborators
  import opened JobRegistry
  import opened EnrichmentSchemas
  import Repository
  import ExtractPipeline

  // ---------------------------------------------------------------- model check

  /** The name is listed as given, or, when it lacks the prefix, as "models/" + name. */
  predicate ModelAvailable(name: string, models: seq<string>) {
    name in models || (!StartsWith(name, "models/") && "models/" + name in models)
  }

  /** The error `_check_models` raises for a name that is not listed. */
  function ModelNotAvailable(name: string, models: seq<string>): Exc {
    ValueError("Model '" + name + "' not available", extraArg := Some(models))
  }

  /**
   * `_check_models(name)`: the listing's own exception if listing fails;
   * otherwise success exactly when the model is available, and the
   * not-available `ValueError` (carrying the listing) when it is not.
   */
  function CheckModels(name: string, listing: ModelListing): (r: Result<(), Exc>)
    ensures r.Ok? <==> listing.Listed? && ModelAvailable(name, listing.names)
    ensures listing.ListRaised? ==> r == Err(listing.error)
    ensures listing.Listed? && !ModelAvailable(name, listing.names) ==> r == Err(ModelNotAvailable(name, listing.names))
  {
    match listing
    case ListRaised(e) => Err(e)
    case Listed(models) =>
      var prefixed := if !StartsWith(name, "models/") then "models/" + name else name;
      if name !in models && prefixed !in models then Err(ModelNotAvailable(name, models)) else Ok(())
  }

  /** A name that already has the prefix is only looked up as given. */
  lemma PrefixedNameCheckedAsGiven(name: string, models: seq<string>)
    requires StartsWith(name, "models/")
    ensures ModelAvailable(name, models) <==> name in models
  {
  }

  /** A bare name is accepted when only its prefixed form is listed. */
  lemma BareNameMatchesPrefixed(name: string)
    requires !StartsWith(name, "models/")
    ensures ModelAvailable(name, ["models/" + name])
    ensures !ModelAvailable(name, [])
  {
  }

  // ---------------------------------------------------------------- prompt

  /** One entry of an item's `attributes`: its `id` and `value_name`, `None` when missing. */
  datatype Attribute = Attribute(id: Option<string>, valueName: Option<string>)

  /** The fields of an item `_build_prompt` reads. */
  datatype PromptItem = PromptItem(attributes: seq<Attribute>, description: string)

  /** The attribute's id is one of `ids`. */
  predicate HasIdIn(a: Attribute, ids: set<string>) {
    a.id.Some? && a.id.value in ids
  }

  /** `next((a.get("value_name") for a in attrs if a.get("id") in ids), None)`. */
  function FirstValue(attrs: seq<Attribute>, ids: set<string>): Option<string> {
    if attrs == [] then None
    else if HasIdIn(attrs[0], ids) then attrs[0].valueName
    else FirstValue(attrs[1..], ids)
  }

  /**
   * The value comes from the first attribute with a matching id, whatever
   * the later ones hold; with no match it is `None`.
   */
  lemma {:induction false} FirstValueIsFirstMatch(attrs: seq<Attribute>, ids: set<string>, k: nat)
    requires k <= |attrs|
    requires forall j :: 0 <= j < k ==> !HasIdIn(attrs[j], ids)
    ensures k < |attrs| && HasIdIn(attrs[k], ids) ==> FirstValue(attrs, ids) == attrs[k].valueName
    ensures k == |attrs| ==> FirstValue(attrs, ids) == None
    decreases k
  {
    if k > 0 {
      assert !HasIdIn(attrs[0], ids);
      assert forall j :: 0 <= j < k - 1 ==> attrs[1..][j] == attrs[j + 1];
      FirstValueIsFirstMatch(attrs[1..], ids, k - 1);
    }
  }

  /** f"{v}" for a value that is a string or `None`. */
  function Render(v: Option<string>): string {
    if v.Some? then v.value else "None"
  }

  /** `filter(None, parts)`: the non-empty strings, in order. */
  function NonEmpty(parts: seq<string>): seq<string> {
    if parts == [] then [] else (if parts[0] != "" then [parts[0]] else []) + NonEmpty(parts[1..])
  }

  /** The spec line: brand, model and color, each from its first matching attribute. */
  function SpecLine(attrs: seq<Attribute>): string {
    LabeledSpecs(FirstValue(attrs, {"BRAND"}), FirstValue(attrs, {"MODEL"}), FirstValue(attrs, {"COLOR", "MAIN_COLOR"}))
  }

  /** The three labelled values, filtered and joined with ", ". */
  function LabeledSpecs(brand: Option<string>, model: Option<string>, color: Option<string>): string {
    Join(", ", NonEmpty(["brand: " + Render(brand), "model: " + Render(model), "color: " + Render(color)]))
  }

  /**
   * The filter drops nothing: the spec line always has its three parts, a
   * missing value shown as "None".
   */
  lemma SpecLineHasThreeParts(attrs: seq<Attribute>)
    ensures SpecLine(attrs)
      == ("brand: " + Render(FirstValue(attrs, {"BRAND"}))) + ", "
       + ("model: " + Render(FirstValue(attrs, {"MODEL"}))) + ", "
       + ("color: " + Render(FirstValue(attrs, {"COLOR", "MAIN_COLOR"})))
  {
    LabeledSpecsKeepAll(FirstValue(attrs, {"BRAND"}), FirstValue(attrs, {"MODEL"}), FirstValue(attrs, {"COLOR", "MAIN_COLOR"}));
  }

  /** Each labelled part is non-empty, so the filter keeps all three. */
  lemma LabeledSpecsKeepAll(brand: Option<string>, model: Option<string>, color: Option<string>)
    ensures LabeledSpecs(brand, model, color)
      == ("brand: " + Render(brand)) + ", " + ("model: " + Render(model)) + ", " + ("color: " + Render(color))
  {
    JoinNonEmptyThree("brand: " + Render(brand), "model: " + Render(model), "color: " + Render(color));
  }

  /** `filter` keeps three non-empty parts, so they are joined as they are. */
  lemma JoinNonEmptyThree(b: string, m: string, c: string)
    requires b != "" && m != "" && c != ""
    ensures Join(", ", NonEmpty([b, m, c])) == b + ", " + m + ", " + c
  {
    assert [c][1..] == [] && NonEmpty([c]) == [c] + [];
    assert [m, c][1..] == [c] && NonEmpty([m, c]) == [m] + [c];
    assert [b, m, c][1..] == [m, c] && NonEmpty([b, m, c]) == [b] + [m, c];
    assert [b, m, c][1..] == [m, c] && Join(", ", [m, c]) == m + ", " + c;
  }

  /** `item.get("description", "")[:400]`. */
  function Trimmed(description: string): (t: string)
    ensures |t| <= 400 && StartsWith(description, t)
    ensures |description| <= 400 ==> t == description
    ensures |description| > 400 ==> t == description[..400]
  {
    if |description| <= 400 then description else description[..400]
  }

  /** The opening sentence of every prompt. */
  const Intro: string := "Generate a concise, factual product description for an e-commerce listing. "

  /** f"Tone: {tone}. " */
  function ToneClause(tone: string): string {
    "Tone: " + tone + ". "
  }

  /** f"Limit to {max_words} words. " */
  function LimitClause(maxWords: int): string {
    "Limit to " + IntToDecimal(maxWords) + " words. "
  }

  /** The rest of the prompt: the fixed instructions, the spec line and the trimmed description. */
  function PromptTail(attrs: seq<Attribute>, description: string): (r: string)
    ensures EndsWith(r, Trimmed(description))
  {
    EndsWithAppend("Avoid exaggeration. " + "Respond strictly in Spanish. " + "Specs: " + SpecLine(attrs) + ". "
      + "Source description (trimmed): ", Trimmed(description));
    "Avoid exaggeration. " + "Respond strictly in Spanish. "
    + "Specs: " + SpecLine(attrs) + ". "
    + "Source description (trimmed): " + Trimmed(description)
  }

  /** `_build_prompt(item, tone, max_words)`. */
  function BuildPrompt(item: PromptItem, tone: string, maxWords: int): (p: string)
    ensures EndsWith(p, Trimmed(item.description))
  {
    var tail := PromptTail(item.attributes, item.description);
    EndsWithKept(LimitClause(maxWords), tail, Trimmed(item.description));
    EndsWithKept(ToneClause(tone), LimitClause(maxWords) + tail, Trimmed(item.description));
    EndsWithKept(Intro, ToneClause(tone) + (LimitClause(maxWords) + tail), Trimmed(item.description));
    Intro + (ToneClause(tone) + (LimitClause(maxWords) + tail))
  }

  lemma EndsWithAppend(a: string, b: string)
    ensures EndsWith(a + b, b)
  {
    assert (a + b)[|a|..] == b;
  }

  lemma EndsWithKept(a: string, b: string, t: string)
    requires EndsWith(b, t)
    ensures EndsWith(a + b, t)
  {
    assert (a + b)[|a + b| - |t|..] == b[|b| - |t|..];
  }

  /** A string containing `t` still contains it once text is put around it. */
  lemma ContainsWithin(x: string, s: string, y: string, t: string)
    requires Contains(s, t)
    ensures Contains(x + (s + y), t)
  {
    ContainsIffOccurs(s, t);
    var i :| OccursAt(s, t, i);
    assert (x + (s + y))[|x| + i..|x| + i + |t|] == s[i..i + |t|];
    assert OccursAt(x + (s + y), t, |x| + i);
    ContainsIffOccurs(x + (s + y), t);
  }

  /** A string containing `t` still contains it once text is put before it. */
  lemma ContainsAfter(x: string, s: string, t: string)
    requires Contains(s, t)
    ensures Contains(x + s, t)
  {
    ContainsIffOccurs(s, t);
    var i :| OccursAt(s, t, i);
    assert (x + s)[|x| + i..|x| + i + |t|] == s[i..i + |t|];
    assert OccursAt(x + s, t, |x| + i);
    ContainsIffOccurs(x + s, t);
  }

  /** A piece placed between two others is contained in the whole. */
  lemma ContainsMiddle(a: string, t: string, b: string)
    ensures Contains(a + t + b, t)
  {
    assert (a + t + b)[|a|..|a| + |t|] == t;
    assert OccursAt(a + t + b, t, |a|);
    ContainsIffOccurs(a + t + b, t);
  }

  /** The prompt embeds the tone. */
  lemma PromptEmbedsTone(item: PromptItem, tone: string, maxWords: int)
    ensures Contains(BuildPrompt(item, tone, maxWords), tone)
  {
    ContainsMiddle("Tone: ", tone, ". ");
    ContainsWithin(Intro, ToneClause(tone), LimitClause(maxWords) + PromptTail(item.attributes, item.description), tone);
    assert BuildPrompt(item, tone, maxWords)
      == Intro + (ToneClause(tone) + (LimitClause(maxWords) + PromptTail(item.attributes, item.description)));
  }

  /** The prompt embeds the word limit, written in decimal. */
  lemma PromptEmbedsWordLimit(item: PromptItem, tone: string, maxWords: int)
    ensures Contains(BuildPrompt(item, tone, maxWords), IntToDecimal(maxWords))
  {
    var d := IntToDecimal(maxWords);
    ContainsMiddle("Limit to ", d, " words. ");
    ContainsWithin(ToneClause(tone), LimitClause(maxWords), PromptTail(item.attributes, item.description), d);
    ContainsAfter(Intro, ToneClause(tone) + (LimitClause(maxWords) + PromptTail(item.attributes, item.description)), d);
    assert BuildPrompt(item, tone, maxWords)
      == Intro + (ToneClause(tone) + (LimitClause(maxWords) + PromptTail(item.attributes, item.description)));
  }

  /**
   * Only the first 400 characters of the description reach the prompt: two
   * descriptions that agree on them give the same prompt, whatever follows.
   */
  lemma PromptSeesFirst400(attrs: seq<Attribute>, d1: string, d2: string, tone: string, maxWords: int)
    requires |d1| >= 400 && |d2| >= 400 && d1[..400] == d2[..400]
    ensures BuildPrompt(PromptItem(attrs, d1), tone, maxWords) == BuildPrompt(PromptItem(attrs, d2), tone, maxWords)
  {
  }

  /** The items of the pipeline carry no attributes, so their spec line is all "None". */
  lemma PipelineSpecLine()
    ensures SpecLine([]) == "brand: None, model: None, color: None"
  {
    SpecLineHasThreeParts([]);
  }

  // ---------------------------------------------------------------- fetch phase

  /** `description.get("plain_text") or description.get("text") or ""`. */
  function DescriptionText(p: DescriptionPayload): (d: string)
    ensures p.plainText.JsonText? && p.plainText.s != "" ==> d == p.plainText.s
    ensures !(p.plainText.JsonText? && p.plainText.s != "") && p.text.JsonText? && p.text.s != "" ==> d == p.text.s
    ensures d == "" ==> !(p.text.JsonText? && p.text.s != "")
  {
    if p.plainText.JsonText? && p.plainText.s != "" then p.plainText.s
    else if p.text.JsonText? && p.text.s != "" then p.text.s
    else ""
  }

  /**
   * Both pipelines read the same description text; only enrichment's final
   * `or ""` maps a null `text` to "".
   */
  lemma DescriptionTextAgrees(p: DescriptionPayload)
    ensures DescriptionText(p) == (match ExtractPipeline.DescriptionOf(p) case None => "" case Some(s) => s)
  {
  }

  /** `{"id": item_id, "description": ...}` for a fetched item. */
  datatype FetchedItem = FetchedItem(id: string, description: string)

  /** The two lists the fetch loop builds. */
  datatype FetchResult = FetchResult(items: seq<FetchedItem>, errors: seq<ItemError>)

  /** A fetch outcome that the fetch loop lets escape. */
  predicate Escapes(o: FetchOutcome) {
    o.FetchRaised? && !o.error.MeliExtractError?
  }

  /**
   * The fetch loop over `ids`, item k fetched by the k-th call: a payload
   * adds an item, a marketplace error adds an error entry, anything else is
   * raised.
   */
  function FetchPhase(ids: seq<string>, fetch: Fetcher): Result<FetchResult, Exc>
    decreases |ids|
  {
    if ids == [] then Ok(FetchResult([], []))
    else
      var n := |ids| - 1;
      match FetchPhase(ids[..n], fetch)
      case Err(e) => Err(e)
      case Ok(acc) =>
        match fetch(n, ids[n])
        case Fetched(p) => Ok(acc.(items := acc.items + [FetchedItem(ids[n], DescriptionText(p))]))
        case FetchRaised(e) =>
          if e.MeliExtractError? then Ok(acc.(errors := acc.errors + [ItemError(ids[n], Str(e))])) else Err(e)
  }

  /** How many of the first k ids were fetched. */
  function FetchedBefore(ids: seq<string>, fetch: Fetcher, k: nat): nat
    requires k <= |ids|
  {
    if k == 0 then 0 else FetchedBefore(ids, fetch, k - 1) + (if fetch(k - 1, ids[k - 1]).Fetched? then 1 else 0)
  }

  /** How many of the first k ids failed with a marketplace error. */
  function FailedBefore(ids: seq<string>, fetch: Fetcher, k: nat): nat
    requires k <= |ids|
  {
    if k == 0 then 0 else FailedBefore(ids, fetch, k - 1) + (if fetch(k - 1, ids[k - 1]).FetchRaised? then 1 else 0)
  }

  /** The counts of a prefix depend only on that prefix. */
  lemma {:induction false} BeforeOfPrefix(ids: seq<string>, fetch: Fetcher, m: nat, k: nat)
    requires k <= m <= |ids|
    ensures FetchedBefore(ids[..m], fetch, k) == FetchedBefore(ids, fetch, k)
    ensures FailedBefore(ids[..m], fetch, k) == FailedBefore(ids, fetch, k)
    decreases k
  {
    if k > 0 {
      BeforeOfPrefix(ids, fetch, m, k - 1);
    }
  }

  /** Every id is either fetched or failed. */
  lemma {:induction false} BeforeAddsUp(ids: seq<string>, fetch: Fetcher, k: nat)
    requires k <= |ids|
    ensures FetchedBefore(ids, fetch, k) + FailedBefore(ids, fetch, k) == k
    decreases k
  {
    if k > 0 {
      BeforeAddsUp(ids, fetch, k - 1);
    }
  }

  /** The fetch loop completes exactly when no call escapes. */
  lemma {:induction false} FetchPhaseOkIff(ids: seq<string>, fetch: Fetcher)
    ensures FetchPhase(ids, fetch).Ok? <==> forall k :: 0 <= k < |ids| ==> !Escapes(fetch(k, ids[k]))
    decreases |ids|
  {
    if ids != [] {
      var n := |ids| - 1;
      FetchPhaseOkIff(ids[..n], fetch);
      assert forall k :: 0 <= k < n ==> ids[..n][k] == ids[k];
    }
  }

  /** A completed fetch loop holds one item per fetched id and one error per failed id. */
  lemma {:induction false} FetchPhaseCounts(ids: seq<string>, fetch: Fetcher)
    requires FetchPhase(ids, fetch).Ok?
    ensures |FetchPhase(ids, fetch).value.items| == FetchedBefore(ids, fetch, |ids|)
    ensures |FetchPhase(ids, fetch).value.errors| == FailedBefore(ids, fetch, |ids|)
    ensures |FetchPhase(ids, fetch).value.items| + |FetchPhase(ids, fetch).value.errors| == |ids|
    decreases |ids|
  {
    if ids != [] {
      var n := |ids| - 1;
      FetchPhaseCounts(ids[..n], fetch);
      BeforeOfPrefix(ids, fetch, n, n);
    }
    BeforeAddsUp(ids, fetch, |ids|);
  }

  /**
   * A fetched id's item sits at the position given by the ids fetched
   * before it: the items keep input order.
   */
  lemma {:induction false} FetchPhaseItemAt(ids: seq<string>, fetch: Fetcher, k: nat)
    requires FetchPhase(ids, fetch).Ok? && k < |ids| && fetch(k, ids[k]).Fetched?
    ensures FetchedBefore(ids, fetch, k) < |FetchPhase(ids, fetch).value.items|
    ensures FetchPhase(ids, fetch).value.items[FetchedBefore(ids, fetch, k)]
      == FetchedItem(ids[k], DescriptionText(fetch(k, ids[k]).payload))
    decreases |ids|
  {
    var n := |ids| - 1;
    var init := ids[..n];
    if k == n {
      FetchPhaseCounts(init, fetch);
      BeforeOfPrefix(ids, fetch, n, n);
    } else {
      FetchPhaseItemAt(init, fetch, k);
      BeforeOfPrefix(ids, fetch, n, k);
      assert init[k] == ids[k];
    }
  }

  /**
   * A failed id's error sits at the position given by the ids that failed
   * before it: the errors keep input order and carry `str(e)`.
   */
  lemma {:induction false} FetchPhaseErrorAt(ids: seq<string>, fetch: Fetcher, k: nat)
    requires FetchPhase(ids, fetch).Ok? && k < |ids| && fetch(k, ids[k]).FetchRaised?
    ensures FailedBefore(ids, fetch, k) < |FetchPhase(ids, fetch).value.errors|
    ensures FetchPhase(ids, fetch).value.errors[FailedBefore(ids, fetch, k)]
      == ItemError(ids[k], Str(fetch(k, ids[k]).error))
    decreases |ids|
  {
    var n := |ids| - 1;
    var init := ids[..n];
    if k == n {
      FetchPhaseCounts(init, fetch);
      BeforeOfPrefix(ids, fetch, n, n);
    } else {
      FetchPhaseErrorAt(init, fetch, k);
      BeforeOfPrefix(ids, fetch, n, k);
      assert init[k] == ids[k];
    }
  }

  // ---------------------------------------------------------------- generate phase

  /** The prompt for a fetched item: it has a description and no attributes. */
  function PromptFor(item: FetchedItem, tone: string, maxWords: int): string {
    BuildPrompt(PromptItem([], item.description), tone, maxWords)
  }

  /** The prompt of each fetched item for one tone and word limit. */
  function Prompter(tone: string, maxWords: int): FetchedItem -> string {
    item => PromptFor(item, tone, maxWords)
  }

  /**
   * The generate loop over the fetched items, item m sent as the m-th call
   * and stamped with the m-th clock reading; the first exception is raised.
   */
  function GeneratePhase(items: seq<FetchedItem>, prompt: FetchedItem -> string, generate: Generator, stamps: nat -> Timestamp)
    : Result<seq<EnrichedRecord>, Exc>
    decreases |items|
  {
    if items == [] then Ok([])
    else
      var n := |items| - 1;
      match GeneratePhase(items[..n], prompt, generate, stamps)
      case Err(e) => Err(e)
      case Ok(acc) =>
        match generate(n, prompt(items[n]))
        case Generated(text) => Ok(acc + [EnrichedRecord(items[n].id, items[n].description, text, stamps(n))])
        case GenerateRaised(e) => Err(e)
  }

  /** The generate loop completes exactly when every call returns. */
  lemma {:induction false} GeneratePhaseOkIff(items: seq<FetchedItem>, prompt: FetchedItem -> string, generate: Generator, stamps: nat -> Timestamp)
    ensures GeneratePhase(items, prompt, generate, stamps).Ok?
      <==> forall m :: 0 <= m < |items| ==> generate(m, prompt(items[m])).Generated?
    decreases |items|
  {
    if items != [] {
      var n := |items| - 1;
      GeneratePhaseOkIff(items[..n], prompt, generate, stamps);
      assert forall m :: 0 <= m < n ==> items[..n][m] == items[m];
    }
  }

  /**
   * A completed generate loop holds one record per fetched item, in order,
   * with that item's id and description, the text of its own call and its
   * own timestamp.
   */
  lemma {:induction false} GeneratePhasePerItem(items: seq<FetchedItem>, prompt: FetchedItem -> string, generate: Generator, stamps: nat -> Timestamp)
    requires GeneratePhase(items, prompt, generate, stamps).Ok?
    ensures |GeneratePhase(items, prompt, generate, stamps).value| == |items|
    ensures forall m :: 0 <= m < |items| ==>
      && generate(m, prompt(items[m])).Generated?
      && GeneratePhase(items, prompt, generate, stamps).value[m]
         == EnrichedRecord(items[m].id, items[m].description, generate(m, prompt(items[m])).text, stamps(m))
    decreases |items|
  {
    if items != [] {
      var n := |items| - 1;
      var init := items[..n];
      GeneratePhasePerItem(init, prompt, generate, stamps);
      var acc := GeneratePhase(init, prompt, generate, stamps).value;
      var last := generate(n, prompt(items[n]));
      assert GeneratePhase(items, prompt, generate, stamps).value
        == acc + [EnrichedRecord(items[n].id, items[n].description, last.text, stamps(n))];
      forall m | 0 <= m < n
        ensures items[m] == init[m]
      {
      }
    }
  }

  /**
   * The exception that escapes the generate loop is that of the first call
   * that raised: every earlier call returned a text.
   */
  lemma {:induction false} GeneratePhaseFirstRaise(items: seq<FetchedItem>, prompt: FetchedItem -> string, generate: Generator, stamps: nat -> Timestamp)
    requires GeneratePhase(items, prompt, generate, stamps).Err?
    ensures exists m ::
      && 0 <= m < |items| && generate(m, prompt(items[m])).GenerateRaised?
      && GeneratePhase(items, prompt, generate, stamps).error == generate(m, prompt(items[m])).error
      && forall j :: 0 <= j < m ==> generate(j, prompt(items[j])).Generated?
    decreases |items|
  {
    var n := |items| - 1;
    if GeneratePhase(items[..n], prompt, generate, stamps).Err? {
      GeneratePhaseFirstRaise(items[..n], prompt, generate, stamps);
      var m :| 0 <= m < n && generate(m, prompt(items[..n][m])).GenerateRaised?
        && GeneratePhase(items[..n], prompt, generate, stamps).error == generate(m, prompt(items[..n][m])).error
        && forall j :: 0 <= j < m ==> generate(j, prompt(items[..n][j])).Generated?;
      assert forall j :: 0 <= j < n ==> items[..n][j] == items[j];
      assert generate(m, prompt(items[m])).GenerateRaised?;
    } else {
      GeneratePhaseOkIff(items[..n], prompt, generate, stamps);
      assert forall j :: 0 <= j < n ==> items[..n][j] == items[j];
      assert generate(n, prompt(items[n])).GenerateRaised?;
    }
  }

  // ---------------------------------------------------------------- _enrich_from_ids

  /** What `_enrich_from_ids` returns: the enriched records and the fetch errors. */
  datatype EnrichResult = EnrichResult(enriched: seq<EnrichedRecord>, errors: seq<ItemError>)

  /** The collaborators of one enrichment run. */
  datatype Oracles = Oracles(listing: ModelListing, fetch: Fetcher, generate: Generator)

  /**
   * The clock of one run: the start and finish timestamps, the timestamp of
   * each generated record, and the measured duration.
   */
  datatype Clock = Clock(started: Timestamp, finished: Timestamp, stamps: nat -> Timestamp, elapsed: real)

  /** The fetch phase, then the generate phase over the fetched items. */
  function EnrichFromIdsSpec(ids: seq<string>, tone: string, maxWords: int, o: Oracles, stamps: nat -> Timestamp)
    : Result<EnrichResult, Exc>
  {
    match FetchPhase(ids, o.fetch)
    case Err(e) => Err(e)
    case Ok(f) =>
      match GeneratePhase(f.items, Prompter(tone, maxWords), o.generate, stamps)
      case Err(e) => Err(e)
      case Ok(enriched) => Ok(EnrichResult(enriched, f.errors))
  }

  /** The dicts handed to `insert_many`. */
  function InsertItems(rs: seq<EnrichedRecord>): (items: seq<Repository.InsertItem>)
    ensures |items| == |rs|
    ensures forall i :: 0 <= i < |rs| ==> items[i] == Repository.ItemOf(rs[i])
  {
    if rs == [] then [] else [Repository.ItemOf(rs[0])] + InsertItems(rs[1..])
  }

  /** The rows a run adds to the table: the records, in order, under the next ids. */
  function Persisted(r: Result<EnrichResult, Exc>, firstId: int, stamps: nat -> Timestamp): seq<EnrichedProduct> {
    if r.Ok? && r.value.enriched != [] then Repository.RowsFor(InsertItems(r.value.enriched), firstId, stamps) else []
  }

  /** The fetch loop of `_enrich_from_ids`. */
  method FetchDescriptions(ids: seq<string>, fetch: Fetcher) returns (r: Result<FetchResult, Exc>)
    ensures r == FetchPhase(ids, fetch)
  {
    var items: seq<FetchedItem> := [];
    var errors: seq<ItemError> := [];
    var i := 0;
    while i < |ids|
      invariant 0 <= i <= |ids|
      invariant FetchPhase(ids[..i], fetch) == Ok(FetchResult(items, errors))
    {
      assert ids[..i + 1][..i] == ids[..i];
      var itemId := ids[i];
      match fetch(i, itemId) {
        case Fetched(p) =>
          var description := if p.plainText.JsonText? && p.plainText.s != "" then p.plainText.s
            else if p.text.JsonText? && p.text.s != "" then p.text.s else "";
          items := items + [FetchedItem(itemId, description)];
        case FetchRaised(e) =>
          if e.MeliExtractError? {
            errors := errors + [ItemError(itemId, Str(e))];
          } else {
            FetchPhaseStopsAt(ids, fetch, i);
            return Err(e);
          }
      }
      i := i + 1;
    }
    assert ids[..i] == ids;
    r := Ok(FetchResult(items, errors));
  }

  lemma FetchPhaseStopsAt(ids: seq<string>, fetch: Fetcher, i: nat)
    requires i < |ids| && FetchPhase(ids[..i], fetch).Ok? && Escapes(fetch(i, ids[i]))
    ensures FetchPhase(ids, fetch) == Err(fetch(i, ids[i]).error)
  {
    assert ids[..i + 1][..i] == ids[..i];
    FetchPhaseErrPersists(ids, fetch, i + 1);
  }

  lemma {:induction false} FetchPhaseErrPersists(ids: seq<string>, fetch: Fetcher, m: nat)
    requires m <= |ids| && FetchPhase(ids[..m], fetch).Err?
    ensures FetchPhase(ids, fetch) == FetchPhase(ids[..m], fetch)
    decreases |ids| - m
  {
    if m < |ids| {
      assert ids[..m + 1][..m] == ids[..m];
      FetchPhaseErrPersists(ids, fetch, m + 1);
    } else {
      assert ids[..m] == ids;
    }
  }

  /** The generate loop of `_enrich_from_ids`. */
  method GenerateDescriptions(items: seq<FetchedItem>, prompt: FetchedItem -> string, generate: Generator, stamps: nat -> Timestamp)
    returns (r: Result<seq<EnrichedRecord>, Exc>)
    ensures r == GeneratePhase(items, prompt, generate, stamps)
  {
    var enriched: seq<EnrichedRecord> := [];
    var i := 0;
    while i < |items|
      invariant 0 <= i <= |items|
      invariant GeneratePhase(items[..i], prompt, generate, stamps) == Ok(enriched)
    {
      assert items[..i + 1][..i] == items[..i];
      match generate(i, prompt(items[i])) {
        case Generated(text) =>
          enriched := enriched + [EnrichedRecord(items[i].id, items[i].description, text, stamps(i))];
        case GenerateRaised(e) =>
          GeneratePhaseStopsAt(items, prompt, generate, stamps, i);
          return Err(e);
      }
      i := i + 1;
    }
    assert items[..i] == items;
    r := Ok(enriched);
  }

  lemma GeneratePhaseStopsAt(items: seq<FetchedItem>, prompt: FetchedItem -> string, generate: Generator, stamps: nat -> Timestamp, i: nat)
    requires i < |items| && GeneratePhase(items[..i], prompt, generate, stamps).Ok?
    requires generate(i, prompt(items[i])).GenerateRaised?
    ensures GeneratePhase(items, prompt, generate, stamps) == Err(generate(i, prompt(items[i])).error)
  {
    assert items[..i + 1][..i] == items[..i];
    GeneratePhaseErrPersists(items, prompt, generate, stamps, i + 1);
  }

  lemma {:induction false} GeneratePhaseErrPersists(items: seq<FetchedItem>, prompt: FetchedItem -> string, generate: Generator, stamps: nat -> Timestamp, m: nat)
    requires m <= |items| && GeneratePhase(items[..m], prompt, generate, stamps).Err?
    ensures GeneratePhase(items, prompt, generate, stamps) == GeneratePhase(items[..m], prompt, generate, stamps)
    decreases |items| - m
  {
    if m < |items| {
      assert items[..m + 1][..m] == items[..m];
      GeneratePhaseErrPersists(items, prompt, generate, stamps, m + 1);
    } else {
      assert items[..m] == items;
    }
  }

  /**
   * `_enrich_from_ids(item_ids, tone, max_words)`: the fetch loop, the
   * generate loop, then one `insert_many` with the whole enriched list when
   * it is not empty. An exception from either loop escapes before the insert.
   */
  method EnrichFromIds(store: Repository.ProductStore, ids: seq<string>, tone: string, maxWords: int, o: Oracles, stamps: nat -> Timestamp)
    returns (r: Result<EnrichResult, Exc>, inserted: bool)
    requires store.Valid()
    modifies store
    ensures store.Valid()
    ensures r == EnrichFromIdsSpec(ids, tone, maxWords, o, stamps)
    ensures inserted <==> r.Ok? && r.value.enriched != []
    ensures store.rows == old(store.rows) + Persisted(r, |old(store.rows)| + 1, stamps)
  {
    var fetched := FetchDescriptions(ids, o.fetch);
    if fetched.Err? {
      return Err(fetched.error), false;
    }
    var generated := GenerateDescriptions(fetched.value.items, Prompter(tone, maxWords), o.generate, stamps);
    if generated.Err? {
      return Err(generated.error), false;
    }
    var enriched := generated.value;
    inserted := false;
    if enriched != [] {
      store.InsertMany(InsertItems(enriched), stamps);
      inserted := true;
    }
    r := Ok(EnrichResult(enriched, fetched.value.errors));
  }

  /** The rows the pipeline persists are its records verbatim, under consecutive ids. */
  lemma PersistedRowsAreRecords(rs: seq<EnrichedRecord>, firstId: int, stamps: nat -> Timestamp, k: nat)
    requires k < |rs| && rs[k].createdAt != ""
    ensures Repository.RowsFor(InsertItems(rs), firstId, stamps)[k]
      == EnrichedProduct(firstId + k, rs[k].itemId, rs[k].originalDescription, rs[k].enrichedDescription, Some(rs[k].createdAt))
  {
    Repository.RowsForAt(InsertItems(rs), firstId, stamps, k);
    Repository.RecordStoredVerbatim(rs[k], firstId + k, stamps(k));
  }

  // ---------------------------------------------------------------- enrich

  /** A `failed` update with a finish time. */
  function FailedUpdate(detail: string, result: JobResult, finished: Timestamp, duration: real): StatusUpdate {
    StatusUpdate(Failed, detail := detail, result := result, finishedAt := Some(finished), durationSeconds := Some(duration))
  }

  /** The detail of the rate-limit handler: the hint printed as a float, or "None". */
  function QuotaDetail(hint: Option<RetryAfter>): string {
    "Gemini quota exceeded. Retry after " + HintText(hint) + "s"
  }

  /**
   * The update of the handler that catches `e` once the job is running:
   * rate limit first, then `ValueError` (duration 0.0), then any exception.
   */
  function HandlerUpdate(e: Exc, c: Clock): StatusUpdate {
    if e.GeminiRateLimitError? then FailedUpdate(QuotaDetail(e.retryAfterSeconds), ErrorMessages([Str(e)]), c.finished, c.elapsed)
    else if e.ValueError? then FailedUpdate(Str(e), NoResult, c.finished, 0.0)
    else FailedUpdate(Str(e), NoResult, c.finished, c.elapsed)
  }

  /** The running update, once the model check passed. */
  function EnrichRunning(req: EnrichmentRequest, c: Clock): StatusUpdate {
    StatusUpdate(Running, detail := "Processing", startedAt := Some(c.started), totalTasks := Some(|req.itemIds|))
  }

  /** What one run does: the registry updates, whether it inserted, and the exception that escapes. */
  datatype EnrichRun = EnrichRun(updates: seq<StatusUpdate>, inserted: bool, raised: Option<Exc>)

  /**
   * The run of `enrich(job, payload)`. A failed model check is handled
   * before `start_time` exists: a `ValueError` gives one failed update with
   * duration 0.0, anything else makes the handler itself raise, and no
   * update is issued. Otherwise the running update is followed by exactly
   * one terminal update.
   */
  function EnrichPlan(req: EnrichmentRequest, o: Oracles, c: Clock): EnrichRun {
    match CheckModels(req.model, o.listing)
    case Err(e) =>
      if e.ValueError? then EnrichRun([FailedUpdate(Str(e), NoResult, c.finished, 0.0)], false, None)
      else EnrichRun([], false, Some(UnboundStartTime))
    case Ok(_) =>
      var running := EnrichRunning(req, c);
      match EnrichFromIdsSpec(req.itemIds, req.tone, req.maxWords, o, c.stamps)
      case Err(e) => EnrichRun([running, HandlerUpdate(e, c)], false, None)
      case Ok(res) =>
        if res.enriched == [] then
          EnrichRun([running, FailedUpdate("No items enriched", FetchErrors(res.errors), c.finished, c.elapsed)], false, None)
        else
          EnrichRun([running, StatusUpdate(Completed, result := EnrichedItems(res.enriched),
                                           finishedAt := Some(c.finished), durationSeconds := Some(c.elapsed))], true, None)
  }

  /**
   * `enrich(job, payload)` on the registry `jm` and the table `store`: the
   * registry receives the plan's updates on the job, the table the persisted
   * rows, and the plan's exception escapes.
   */
  method Enrich(jm: JobManager, store: Repository.ProductStore, job: Job, req: EnrichmentRequest, o: Oracles, c: Clock)
    returns (raised: Option<Exc>)
    requires jm.Valid() && store.Valid()
    modifies jm, store
    ensures jm.Valid() && store.Valid()
    ensures jm.jobs == ApplyAll(old(jm.jobs), job.id, EnrichPlan(req, o, c).updates)
    ensures jm.keys == old(jm.keys) && jm.order == old(jm.order)
    ensures raised == EnrichPlan(req, o, c).raised
    ensures EnrichPlan(req, o, c).inserted ==>
      store.rows == old(store.rows)
        + Repository.RowsFor(InsertItems(EnrichFromIdsSpec(req.itemIds, req.tone, req.maxWords, o, c.stamps).value.enriched),
                             |old(store.rows)| + 1, c.stamps)
    ensures !EnrichPlan(req, o, c).inserted ==> store.rows == old(store.rows)
  {
    ghost var jobs0 := jm.jobs;
    var check := CheckModels(req.model, o.listing);
    if check.Err? {
      var e := check.error;
      if e.ValueError? {
        var failed := StatusUpdate(Failed, detail := Str(e), finishedAt := Some(c.finished), durationSeconds := Some(0.0));
        jm.UpdateStatus(job.id, failed);
        ApplyAllOne(jobs0, job.id, failed);
        return None;
      }
      // the handler reads `start_time`, which was never assigned
      return Some(UnboundStartTime);
    }

    var running := StatusUpdate(Running, detail := "Processing", startedAt := Some(c.started), totalTasks := Some(|req.itemIds|));
    jm.UpdateStatus(job.id, running);

    var r, inserted := EnrichFromIds(store, req.itemIds, req.tone, req.maxWords, o, c.stamps);
    var final: StatusUpdate;
    if r.Err? {
      final := HandlerUpdate(r.error, c);
    } else if r.value.enriched == [] {
      final := StatusUpdate(Failed, detail := "No items enriched", result := FetchErrors(r.value.errors),
                            finishedAt := Some(c.finished), durationSeconds := Some(c.elapsed));
    } else {
      final := StatusUpdate(Completed, result := EnrichedItems(r.value.enriched),
                            finishedAt := Some(c.finished), durationSeconds := Some(c.elapsed));
    }
    jm.UpdateStatus(job.id, final);
    ApplyAllTwo(jobs0, job.id, running, final);
    raised := None;
  }

  // ---------------------------------------------------------------- properties of a run

  /**
   * A failed model check with a `ValueError`: one failed update with detail
   * `str(e)`, duration 0.0 and no result; no running update, no insert.
   */
  lemma CheckFailureFailsAtOnce(req: EnrichmentRequest, o: Oracles, c: Clock)
    requires CheckModels(req.model, o.listing).Err? && CheckModels(req.model, o.listing).error.ValueError?
    ensures var run := EnrichPlan(req, o, c);
      && |run.updates| == 1 && !run.inserted && run.raised == None
      && run.updates[0].status == Failed
      && run.updates[0].detail == Str(CheckModels(req.model, o.listing).error)
      && run.updates[0].durationSeconds == Some(0.0)
      && run.updates[0].result == NoResult
  {
  }

  /** A failed model check does not depend on the marketplace or on generation: nothing is fetched. */
  lemma CheckFailureFetchesNothing(req: EnrichmentRequest, o: Oracles, c: Clock, fetch2: Fetcher, generate2: Generator)
    requires CheckModels(req.model, o.listing).Err?
    ensures EnrichPlan(req, o, c) == EnrichPlan(req, o.(fetch := fetch2, generate := generate2), c)
  {
  }

  /** A model the listing names but under a form the check does not try is rejected with the listing. */
  lemma UnlistedModelMessage(name: string, models: seq<string>, req: EnrichmentRequest, o: Oracles, c: Clock)
    requires req.model == name && o.listing == Listed(models) && !ModelAvailable(name, models)
    ensures EnrichPlan(req, o, c).updates[0].detail == Str(ModelNotAvailable(name, models))
    ensures Str(ModelNotAvailable(name, models)) == "(" + PyRepr("Model '" + name + "' not available") + ", " + PyListRepr(models) + ")"
  {
  }

  /**
   * A listing failure other than `ValueError` makes the handler raise (it
   * reads `start_time` before assignment): no update, so the job stays as it
   * was, e.g. pending.
   */
  lemma ListingFailureLeavesJob(jobs: map<string, Job>, req: EnrichmentRequest, o: Oracles, c: Clock, id: string)
    requires o.listing.ListRaised? && !o.listing.error.ValueError?
    ensures EnrichPlan(req, o, c).updates == [] && EnrichPlan(req, o, c).raised == Some(UnboundStartTime)
    ensures ApplyAll(jobs, id, EnrichPlan(req, o, c).updates) == jobs
  {
  }

  /**
   * A passed model check: the running update ("Processing", the start time,
   * N tasks) followed by exactly one terminal update; nothing escapes.
   */
  lemma PassedCheckRunsThenEnds(req: EnrichmentRequest, o: Oracles, c: Clock)
    requires CheckModels(req.model, o.listing).Ok?
    ensures var run := EnrichPlan(req, o, c);
      && |run.updates| == 2 && run.raised == None
      && run.updates[0] == StatusUpdate(Running, detail := "Processing", startedAt := Some(c.started), totalTasks := Some(|req.itemIds|))
      && IsTerminal(run.updates[1].status)
  {
  }

  /** With nothing enriched the job fails with the fetch errors; otherwise it completes with the records. */
  lemma EnrichedOrNot(req: EnrichmentRequest, o: Oracles, c: Clock)
    requires CheckModels(req.model, o.listing).Ok?
    requires EnrichFromIdsSpec(req.itemIds, req.tone, req.maxWords, o, c.stamps).Ok?
    ensures var res := EnrichFromIdsSpec(req.itemIds, req.tone, req.maxWords, o, c.stamps).value;
      var last := EnrichPlan(req, o, c).updates[1];
      && (res.enriched == [] ==>
           last == FailedUpdate("No items enriched", FetchErrors(res.errors), c.finished, c.elapsed))
      && (res.enriched != [] ==>
           && last.status == Completed && last.detail == "" && last.result == EnrichedItems(res.enriched)
           && last.finishedAt == Some(c.finished) && last.durationSeconds == Some(c.elapsed))
  {
  }

  /**
   * An exception from the fetch or generate phase picks the terminal update
   * by its kind: a rate limit reports the quota and its hint, a `ValueError`
   * records duration 0.0, anything else records `str(e)` and no result.
   */
  lemma RaisedPicksHandler(req: EnrichmentRequest, o: Oracles, c: Clock)
    requires CheckModels(req.model, o.listing).Ok?
    requires EnrichFromIdsSpec(req.itemIds, req.tone, req.maxWords, o, c.stamps).Err?
    ensures var e := EnrichFromIdsSpec(req.itemIds, req.tone, req.maxWords, o, c.stamps).error;
      var last := EnrichPlan(req, o, c).updates[1];
      && last.status == Failed && last.finishedAt == Some(c.finished)
      && !EnrichPlan(req, o, c).inserted
      && (e.GeminiRateLimitError? ==>
           && last.detail == "Gemini quota exceeded. Retry after " + HintText(e.retryAfterSeconds) + "s"
           && last.result == ErrorMessages([e.message]) && last.durationSeconds == Some(c.elapsed))
      && (e.ValueError? ==> last.detail == Str(e) && last.durationSeconds == Some(0.0) && last.result == NoResult)
      && (!e.GeminiRateLimitError? && !e.ValueError? ==>
           last.detail == Str(e) && last.durationSeconds == Some(c.elapsed) && last.result == NoResult)
  {
  }

  /**
   * A run that enriched something leaves the job completed with the
   * records; the running update's start time and task count are kept, and
   * finish time and duration are set.
   */
  lemma EnrichCompletes(jobs: map<string, Job>, id: string, req: EnrichmentRequest, o: Oracles, c: Clock)
    requires id in jobs && CheckModels(req.model, o.listing).Ok?
    requires EnrichFromIdsSpec(req.itemIds, req.tone, req.maxWords, o, c.stamps).Ok?
    requires EnrichFromIdsSpec(req.itemIds, req.tone, req.maxWords, o, c.stamps).value.enriched != []
    ensures id in ApplyAll(jobs, id, EnrichPlan(req, o, c).updates)
    ensures EnrichPlan(req, o, c).raised == None && EnrichPlan(req, o, c).inserted
    ensures var j := ApplyAll(jobs, id, EnrichPlan(req, o, c).updates)[id];
      var res := EnrichFromIdsSpec(req.itemIds, req.tone, req.maxWords, o, c.stamps).value;
      && j.status == Completed && j.detail == "" && j.result == EnrichedItems(res.enriched)
      && j.startedAt == Some(c.started) && j.totalTasks == Some(|req.itemIds|)
      && j.finishedAt == Some(c.finished) && j.durationSeconds == Some(c.elapsed)
  {
    var run := EnrichPlan(req, o, c);
    ApplyAllTwo(jobs, id, EnrichRunning(req, c), run.updates[1]);
    assert run.updates == [EnrichRunning(req, c), run.updates[1]];
  }

  /**
   * A run that passed the model check but enriched nothing, or raised in its
   * loops, leaves the job failed with the handler's detail, result and
   * duration; start time and task count are kept and the finish time is set.
   */
  lemma EnrichFails(jobs: map<string, Job>, id: string, req: EnrichmentRequest, o: Oracles, c: Clock)
    requires id in jobs && CheckModels(req.model, o.listing).Ok?
    requires !(EnrichFromIdsSpec(req.itemIds, req.tone, req.maxWords, o, c.stamps).Ok?
               && EnrichFromIdsSpec(req.itemIds, req.tone, req.maxWords, o, c.stamps).value.enriched != [])
    ensures id in ApplyAll(jobs, id, EnrichPlan(req, o, c).updates)
    ensures EnrichPlan(req, o, c).raised == None && !EnrichPlan(req, o, c).inserted
    ensures var j := ApplyAll(jobs, id, EnrichPlan(req, o, c).updates)[id];
      var r := EnrichFromIdsSpec(req.itemIds, req.tone, req.maxWords, o, c.stamps);
      && j.status == Failed && j.finishedAt == Some(c.finished)
      && j.startedAt == Some(c.started) && j.totalTasks == Some(|req.itemIds|)
      && (r.Ok? ==>
           j.detail == "No items enriched" && j.result == FetchErrors(r.value.errors) && j.durationSeconds == Some(c.elapsed))
      && (r.Err? ==>
           && j.detail == HandlerUpdate(r.error, c).detail && j.result == HandlerUpdate(r.error, c).result
           && j.durationSeconds == HandlerUpdate(r.error, c).durationSeconds)
  {
    var run := EnrichPlan(req, o, c);
    ApplyAllTwo(jobs, id, EnrichRunning(req, c), run.updates[1]);
    assert run.updates == [EnrichRunning(req, c), run.updates[1]];
  }

  /** A rate limit without a hint reports "None" as the delay. */
  lemma QuotaWithoutHint(m: string)
    ensures QuotaDetail(GeminiRateLimitError(m).retryAfterSeconds) == "Gemini quota exceeded. Retry after Nones"
  {
  }

  /**
   * `insert_many` is called exactly when the model check passed, both phases
   * returned, and something was enriched; a raise during generation
   * (a rate limit included) persists nothing.
   */
  lemma InsertIffEnriched(req: EnrichmentRequest, o: Oracles, c: Clock)
    ensures EnrichPlan(req, o, c).inserted <==>
      && CheckModels(req.model, o.listing).Ok?
      && EnrichFromIdsSpec(req.itemIds, req.tone, req.maxWords, o, c.stamps).Ok?
      && EnrichFromIdsSpec(req.itemIds, req.tone, req.maxWords, o, c.stamps).value.enriched != []
  {
  }

  /**
   * A completed run's records: one per fetched item, in fetch order, each
   * with the text of its own generate call; the fetched items are exactly
   * the ids whose fetch returned, in input order.
   */
  lemma EnrichedRecordsPerItem(ids: seq<string>, tone: string, maxWords: int, o: Oracles, stamps: nat -> Timestamp)
    requires EnrichFromIdsSpec(ids, tone, maxWords, o, stamps).Ok?
    ensures FetchPhase(ids, o.fetch).Ok?
    ensures var items := FetchPhase(ids, o.fetch).value.items;
      var res := EnrichFromIdsSpec(ids, tone, maxWords, o, stamps).value;
      && res.errors == FetchPhase(ids, o.fetch).value.errors
      && |res.enriched| == |items|
      && forall m :: 0 <= m < |items| ==>
        && o.generate(m, Prompter(tone, maxWords)(items[m])).Generated?
        && res.enriched[m] == EnrichedRecord(items[m].id, items[m].description,
                                             o.generate(m, Prompter(tone, maxWords)(items[m])).text, stamps(m))
  {
    var f := FetchPhase(ids, o.fetch).value;
    GeneratePhasePerItem(f.items, Prompter(tone, maxWords), o.generate, stamps);
  }

  /** Started from a pending job, the statuses a run sets never go back. */
  lemma EnrichTraceForwardOnly(req: EnrichmentRequest, o: Oracles, c: Clock)
    ensures ForwardOnly([Pending] + Statuses(EnrichPlan(req, o, c).updates))
  {
    var us := EnrichPlan(req, o, c).updates;
    var trace := [Pending] + Statuses(us);
    if CheckModels(req.model, o.listing).Err? {
      assert |us| <= 1 && (|us| == 1 ==> us[0].status == Failed);
      assert |trace| <= 2 && (|trace| == 2 ==> trace[1] == Failed);
    } else {
      assert |us| == 2 && us[0].status == Running && us[1].status in {Failed, Completed};
      assert |trace| == 3 && trace[1] == Running && trace[2] == us[1].status;
    }
    assert trace[0] == Pending;
  }

  // ---------------------------------------------------------------- projections

  /** An enrichment job as the list endpoint shows it, with the status as its string. */
  function SummaryOf(j: Job): (r: EnrichmentSchemas.JobSummaryResponse)
    ensures r.id == j.id && FromValue(r.status) == Some(j.status) && r.detail == Some(j.detail)
    ensures r.startedAt == j.startedAt && r.finishedAt == j.finishedAt
    ensures r.durationSeconds == j.durationSeconds && r.totalTasks == j.totalTasks
  {
    ValueRoundTrip(j.status);
    EnrichmentSchemas.JobSummaryResponse(j.id, Value(j.status), Some(j.detail), j.startedAt, j.finishedAt, j.durationSeconds, j.totalTasks)
  }

  /** `list_enrichments()`: one summary per stored job, in creation order. */
  function ListEnrichments(jm: JobManager): (r: seq<EnrichmentSchemas.JobSummaryResponse>)
    reads jm
    requires jm.Valid()
    ensures |r| == |jm.order|
    ensures forall i :: 0 <= i < |r| ==> r[i] == SummaryOf(jm.jobs[jm.order[i]])
  {
    var js := jm.List();
    seq(|js|, i requires 0 <= i < |js| => SummaryOf(js[i]))
  }

  /** `get_enrichment(job_id)`: the stored job's full detail, or `None` for an unknown id. */
  function GetEnrichment(jm: JobManager, jobId: string): (r: Option<EnrichmentSchemas.JobDetailResponse>)
    reads jm
    ensures r.None? <==> jobId !in jm.jobs
    ensures r.Some? ==>
      && r.value.id == jm.jobs[jobId].id && FromValue(r.value.status) == Some(jm.jobs[jobId].status)
      && r.value.detail == Some(jm.jobs[jobId].detail) && r.value.result == jm.jobs[jobId].result
      && r.value.startedAt == jm.jobs[jobId].startedAt && r.value.finishedAt == jm.jobs[jobId].finishedAt
      && r.value.durationSeconds == jm.jobs[jobId].durationSeconds && r.value.totalTasks == jm.jobs[jobId].totalTasks
  {
    match jm.Get(jobId)
    case None => None
    case Some(j) =>
      ValueRoundTrip(j.status);
      Some(EnrichmentSchemas.JobDetailResponse(j.id, Value(j.status), Some(j.detail), j.result,
                                               j.startedAt, j.finishedAt, j.durationSeconds, j.totalTasks))
  }
}
