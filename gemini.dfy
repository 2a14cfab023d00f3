/**
 * The logic of the language-model client that does not touch the SDK: how a
 * failed `generate` call is classified and its retry hint extracted, how the
 * reply text is assembled from a response, and the model-name listing.
 */
module Gemini {
  import opened Wrappers
  import opened Text
  import opened Exceptions

  /** `"RESOURCE_EXHAUSTED" in msg or "quota" in msg.lower()`. */
  predicate IsRateLimitMessage(msg: string) {
    Contains(msg, "RESOURCE_EXHAUSTED") || Contains(LowerAscii(msg), "quota")
  }

  /**
   * Python's `str.isdigit()` for one character, on the characters the model
   * covers: the ASCII digits, and the superscript, subscript and circled
   * digits, which count as digits but which `float` rejects.
   */
  predicate IsPyDigit(c: char) {
    || IsAsciiDigit(c)
    || c == '\U{b2}' || c == '\U{b3}' || c == '\U{b9}' || c == '\U{2070}'
    || ('\U{2074}' <= c <= '\U{2079}')
    || ('\U{2080}' <= c <= '\U{2089}')
    || ('\U{2460}' <= c <= '\U{2468}')
  }

  /** `s.isdigit()`: non-empty and all digits. */
  predicate IsPyDigits(s: string) {
    s != [] && forall i :: 0 <= i < |s| ==> IsPyDigit(s[i])
  }

  /** `s.replace(".", "", 1)`. */
  function RemoveFirstDot(s: string): (r: string)
    ensures |r| == |s| || |r| == |s| - 1
  {
    if s == [] then []
    else if s[0] == '.' then s[1..]
    else [s[0]] + RemoveFirstDot(s[1..])
  }

  /** `token[:-2]` of a token that ends in "s.". */
  function Numeral(token: string): string
    requires |token| >= 2
  {
    token[..|token| - 2]
  }

  /** The test the scan applies to each token before trying `float`. */
  predicate LooksLikeRetry(token: string) {
    EndsWith(token, "s.") && IsPyDigits(RemoveFirstDot(Numeral(token)))
  }

  /** Whether `float(numeral)` succeeds for a numeral that passed `LooksLikeRetry`. */
  predicate FloatAccepts(numeral: string) {
    forall i :: 0 <= i < |numeral| ==> IsAsciiDigit(numeral[i]) || numeral[i] == '.'
  }

  /** A token the scan stops at: it looks like a retry delay and `float` reads it. */
  predicate IsRetryToken(token: string) {
    LooksLikeRetry(token) && FloatAccepts(Numeral(token))
  }

  /** The hint the scan finds in a token list: the first retry token's numeral. */
  function FirstRetryHint(tokens: seq<string>): Option<RetryAfter> {
    if tokens == [] then None
    else if IsRetryToken(tokens[0]) then Some(RetryAfter(Numeral(tokens[0])))
    else FirstRetryHint(tokens[1..])
  }

  /**
   * The hint is taken from the first token that is a retry token; there is
   * none exactly when no token is one.
   */
  lemma {:induction false} FirstRetryHintIsFirstMatch(tokens: seq<string>)
    ensures FirstRetryHint(tokens).None? <==> forall i :: 0 <= i < |tokens| ==> !IsRetryToken(tokens[i])
    ensures FirstRetryHint(tokens).Some? ==>
      exists k :: 0 <= k < |tokens| && IsRetryToken(tokens[k])
        && FirstRetryHint(tokens) == Some(RetryAfter(Numeral(tokens[k])))
        && forall j :: 0 <= j < k ==> !IsRetryToken(tokens[j])
  {
    if tokens != [] && !IsRetryToken(tokens[0]) {
      FirstRetryHintIsFirstMatch(tokens[1..]);
      if FirstRetryHint(tokens[1..]).Some? {
        var k :| 0 <= k < |tokens[1..]| && IsRetryToken(tokens[1..][k])
          && FirstRetryHint(tokens[1..]) == Some(RetryAfter(Numeral(tokens[1..][k])))
          && forall j :: 0 <= j < k ==> !IsRetryToken(tokens[1..][j]);
        assert IsRetryToken(tokens[k + 1]);
        forall j | 0 <= j < k + 1
          ensures !IsRetryToken(tokens[j])
        {
          if j > 0 {
            assert tokens[j] == tokens[1..][j - 1];
          }
        }
      } else {
        forall i | 0 <= i < |tokens|
          ensures !IsRetryToken(tokens[i])
        {
          if i > 0 {
            assert tokens[i] == tokens[1..][i - 1];
          }
        }
      }
    } else if tokens != [] {
      assert IsRetryToken(tokens[0]);
    }
  }

  /** A numeral `float` reads: ASCII digits and at most one '.', and at least one digit. */
  predicate WellFormedNumeral(n: string) {
    FloatAccepts(n) && CountChar(n, '.') <= 1 && CountChar(n, '.') < |n|
  }

  lemma {:induction false} NoDotInDigits(s: string)
    requires forall i :: 0 <= i < |s| ==> IsPyDigit(s[i])
    ensures CountChar(s, '.') == 0
  {
    if s != [] {
      NoDotInDigits(s[1..]);
    }
  }

  /** `replace(".", "", 1)` removes exactly one dot when there is one. */
  lemma {:induction false} RemoveFirstDotCount(s: string)
    ensures CountChar(s, '.') <= |s|
    ensures CountChar(RemoveFirstDot(s), '.') == if CountChar(s, '.') > 0 then CountChar(s, '.') - 1 else 0
    ensures |RemoveFirstDot(s)| == if CountChar(s, '.') > 0 then |s| - 1 else |s|
  {
    if s != [] && s[0] != '.' {
      RemoveFirstDotCount(s[1..]);
      assert ([s[0]] + RemoveFirstDot(s[1..]))[1..] == RemoveFirstDot(s[1..]);
    } else if s != [] {
      RemoveFirstDotCount(s[1..]);
    }
  }

  /** The numeral of a retry token is one `float` reads as a non-negative number. */
  lemma RetryTokenNumeral(token: string)
    requires IsRetryToken(token)
    ensures WellFormedNumeral(Numeral(token))
  {
    var n := Numeral(token);
    RemoveFirstDotCount(n);
    NoDotInDigits(RemoveFirstDot(n));
  }

  /** Whatever hint the scan finds is a well-formed numeral. */
  lemma {:induction false} FirstRetryHintWellFormed(tokens: seq<string>)
    ensures FirstRetryHint(tokens).Some? ==> WellFormedNumeral(FirstRetryHint(tokens).value.numeral)
  {
    if tokens != [] {
      if IsRetryToken(tokens[0]) {
        RetryTokenNumeral(tokens[0]);
      } else {
        FirstRetryHintWellFormed(tokens[1..]);
      }
    }
  }

  /** A token that does not end in "s." is skipped by the scan. */
  lemma SkipToken(t: string, rest: seq<string>)
    requires !EndsWith(t, "s.")
    ensures FirstRetryHint([t] + rest) == FirstRetryHint(rest)
  {
    assert ([t] + rest)[0] == t && ([t] + rest)[1..] == rest;
  }

  /** "7.50s." is a retry token with numeral "7.50". */
  lemma DelayToken()
    ensures IsRetryToken("7.50s.") && Numeral("7.50s.") == "7.50"
    ensures FirstRetryHint(["7.50s."]) == Some(RetryAfter("7.50"))
  {
    assert Numeral("7.50s.") == "7.50";
    assert RemoveFirstDot("7.50") == "750";
    assert ["7.50s."][0] == "7.50s." && ["7.50s."][1..] == [];
  }

  /** The numeral "7.50" prints as the float 7.5. */
  lemma DelayPrints()
    ensures HintText(Some(RetryAfter("7.50"))) == "7.5"
  {
    assert IntDigits("7.50") == "7";
    assert FracDigits("7.50") == "50";
    assert DropTrailingZeros("50") == "5";
  }

  /** A typical quota message: the delay token is found and prints as a float. */
  lemma QuotaMessageExample()
    ensures FirstRetryHint(["Quota", "exceeded.", "Retry", "in", "7.50s."]) == Some(RetryAfter("7.50"))
    ensures HintText(FirstRetryHint(["Quota", "exceeded.", "Retry", "in", "7.50s."])) == "7.5"
  {
    DelayToken();
    DelayPrints();
    assert !EndsWith("in", "s.");
    SkipToken("in", ["7.50s."]);
    assert ["in"] + ["7.50s."] == ["in", "7.50s."];
    assert !EndsWith("Retry", "s.");
    SkipToken("Retry", ["in", "7.50s."]);
    assert ["Retry"] + ["in", "7.50s."] == ["Retry", "in", "7.50s."];
    assert !EndsWith("exceeded.", "s.");
    SkipToken("exceeded.", ["Retry", "in", "7.50s."]);
    assert ["exceeded."] + ["Retry", "in", "7.50s."] == ["exceeded.", "Retry", "in", "7.50s."];
    assert !EndsWith("Quota", "s.");
    SkipToken("Quota", ["exceeded.", "Retry", "in", "7.50s."]);
    assert ["Quota"] + ["exceeded.", "Retry", "in", "7.50s."] == ["Quota", "exceeded.", "Retry", "in", "7.50s."];
  }

  /**
   * The retry scan of `generate`'s error handler: walk the whitespace tokens
   * of the message; at a token that looks like a delay try `float`, keep the
   * value and stop if it parses, otherwise reset the hint and go on.
   */
  method ScanRetryHint(msg: string) returns (retryAfter: Option<RetryAfter>)
    ensures retryAfter == FirstRetryHint(Split(msg))
  {
    retryAfter := None;
    var tokens := Split(msg);
    var i := 0;
    while i < |tokens|
      invariant 0 <= i <= |tokens|
      invariant retryAfter == None
      invariant FirstRetryHint(tokens[i..]) == FirstRetryHint(tokens)
    {
      var token := tokens[i];
      assert tokens[i..][0] == token && tokens[i..][1..] == tokens[i + 1..];
      assert FirstRetryHint(tokens[i..])
        == if IsRetryToken(token) then Some(RetryAfter(Numeral(token))) else FirstRetryHint(tokens[i + 1..]);
      if EndsWith(token, "s.") {
        var numeral := token[..|token| - 2];
        assert numeral == Numeral(token);
        if IsPyDigits(RemoveFirstDot(numeral)) {
          if FloatAccepts(numeral) {
            retryAfter := Some(RetryAfter(numeral));
            break;
          } else {
            // float() raised ValueError
            retryAfter := None;
          }
        }
      }
      i := i + 1;
    }
  }

  /**
   * The exception `generate` raises for a failed SDK call with message `msg`:
   * a rate-limit error carrying the scanned hint, or a plain service error.
   */
  method WrapGenerateError(msg: string) returns (e: Exc)
    ensures IsRateLimitMessage(msg) ==> e == GeminiRateLimitError(msg, FirstRetryHint(Split(msg)))
    ensures !IsRateLimitMessage(msg) ==> e == GeminiServiceError(msg)
    ensures IsGeminiServiceError(e) && Str(e) == msg
  {
    var isRateLimit := Contains(msg, "RESOURCE_EXHAUSTED") || Contains(LowerAscii(msg), "quota");
    if isRateLimit {
      var retryAfter := ScanRetryHint(msg);
      e := GeminiRateLimitError(msg, retryAfterSeconds := retryAfter);
    } else {
      e := GeminiServiceError(msg);
    }
  }

  /** A response part; `text` is `None` when the part has no string text. */
  datatype Part = Part(text: Option<string>)

  /** A candidate's content; its `parts` may be missing or `None`. */
  datatype Content = Content(parts: Option<seq<Part>>)

  /** A candidate; its `content` may be missing or `None`. */
  datatype Candidate = Candidate(content: Option<Content>)

  /** The SDK response: its `text` (absent or `None` alike) and its `candidates`. */
  datatype Response = Response(text: Option<string>, candidates: Option<seq<Candidate>>)

  /** `getattr(getattr(candidate, "content", None), "parts", []) or []`. */
  function PartsOf(c: Candidate): seq<Part> {
    match c.content
    case None => []
    case Some(content) => if content.parts.Some? then content.parts.value else []
  }

  /** The string texts of a list of parts, in order. */
  function StringTexts(ps: seq<Part>): seq<string> {
    if ps == [] then []
    else StringTexts(ps[..|ps| - 1]) + (if ps[|ps| - 1].text.Some? then [ps[|ps| - 1].text.value] else [])
  }

  /** The string texts of all parts of all candidates, candidate by candidate. */
  function PartTexts(cands: seq<Candidate>): seq<string> {
    if cands == [] then [] else PartTexts(cands[..|cands| - 1]) + StringTexts(PartsOf(cands[|cands| - 1]))
  }

  /** Every collected text comes from a part of some candidate: nothing is invented, each part once. */
  lemma {:induction false} StringTextsCount(ps: seq<Part>)
    ensures |StringTexts(ps)| <= |ps|
    ensures forall t :: t in StringTexts(ps) ==> exists i :: 0 <= i < |ps| && ps[i].text == Some(t)
  {
    if ps != [] {
      var init := ps[..|ps| - 1];
      StringTextsCount(init);
      forall t | t in StringTexts(ps)
        ensures exists i :: 0 <= i < |ps| && ps[i].text == Some(t)
      {
        if t in StringTexts(init) {
          var i :| 0 <= i < |init| && init[i].text == Some(t);
          assert ps[i] == init[i];
        } else {
          assert ps[|ps| - 1].text == Some(t);
        }
      }
    }
  }

  /** The nested loop over candidates and their parts that appends each string text. */
  method CollectParts(candidates: Option<seq<Candidate>>) returns (parts: seq<string>)
    ensures parts == PartTexts(if candidates.Some? then candidates.value else [])
  {
    parts := [];
    var cands := if candidates.Some? then candidates.value else [];
    var i := 0;
    while i < |cands|
      invariant 0 <= i <= |cands|
      invariant parts == PartTexts(cands[..i])
    {
      ghost var before := parts;
      var ps := PartsOf(cands[i]);
      var j := 0;
      while j < |ps|
        invariant 0 <= j <= |ps|
        invariant parts == before + StringTexts(ps[..j])
      {
        StringTextsStep(ps, j);
        if ps[j].text.Some? {
          parts := parts + [ps[j].text.value];
        }
        j := j + 1;
      }
      assert ps[..j] == ps;
      PartTextsStep(cands, i);
      i := i + 1;
    }
    assert cands[..i] == cands;
  }

  lemma StringTextsStep(ps: seq<Part>, j: nat)
    requires j < |ps|
    ensures StringTexts(ps[..j + 1]) == StringTexts(ps[..j]) + (if ps[j].text.Some? then [ps[j].text.value] else [])
  {
    assert ps[..j + 1][..j] == ps[..j];
  }

  lemma PartTextsStep(cands: seq<Candidate>, i: nat)
    requires i < |cands|
    ensures PartTexts(cands[..i + 1]) == PartTexts(cands[..i]) + StringTexts(PartsOf(cands[i]))
  {
    assert cands[..i + 1][..i] == cands[..i];
  }

  /** The text `generate` returns for a response, as a function of the response. */
  function ReplyOf(r: Response): string {
    if r.text.Some? && r.text.value != "" then Strip(r.text.value)
    else Strip(Join(" ", PartTexts(if r.candidates.Some? then r.candidates.value else [])))
  }

  /**
   * `generate`'s success path: a non-empty `response.text`, stripped;
   * otherwise the candidates' part texts joined by single spaces, stripped.
   */
  method ReplyText(r: Response) returns (text: string)
    ensures text == ReplyOf(r)
    ensures text != [] ==> !Text.IsSpace(text[0]) && !Text.IsSpace(text[|text| - 1])
  {
    var t := r.text;
    var parts: seq<string> := [];
    if !(t.Some? && t.value != "") {
      parts := CollectParts(r.candidates);
      t := if parts != [] then Some(Join(" ", parts)) else None;
    }
    var chosen := if t.Some? && t.value != "" then t.value else Join(" ", parts);
    text := Strip(chosen);
  }

  /** Without text and without string parts the reply is the empty string. */
  lemma ReplyWithoutParts(r: Response)
    requires r.text.None? || r.text == Some("")
    requires PartTexts(if r.candidates.Some? then r.candidates.value else []) == []
    ensures ReplyOf(r) == ""
  {
  }

  /** A model of the listing, of which only the name is read. */
  datatype ModelInfo = ModelInfo(name: string)

  /** `list_models`' success path: the names, in listing order (`[]` for an empty listing). */
  function ModelNames(models: seq<ModelInfo>): (names: seq<string>)
    ensures |names| == |models|
    ensures forall i :: 0 <= i < |models| ==> names[i] == models[i].name
  {
    if models == [] then [] else [models[0].name] + ModelNames(models[1..])
  }
}
