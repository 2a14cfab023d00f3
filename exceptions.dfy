/**
 * The exceptions the pipelines raise, catch or record: the language-model
 * errors (a rate-limit error is a kind of service error), the marketplace's
 * extraction error, `ValueError`, and any other exception by type name.
 */
module Exceptions {
  import opened Wrappers
  import opened Text

  /**
   * A retry delay read from a provider message, kept as the numeral it was
   * parsed from: ASCII digits with at most one '.', at least one digit.
   */
  datatype RetryAfter = RetryAfter(numeral: string)

  datatype Exc =
    | GeminiServiceError(message: string)
    | GeminiRateLimitError(message: string, retryAfterSeconds: Option<RetryAfter> := None)
    | MeliExtractError(message: string)
    | ValueError(message: string, extraArg: Option<seq<string>> := None)
    | OtherError(typeName: string, message: string)

  /** `isinstance(e, GeminiServiceError)`: the rate-limit error is a subclass. */
  predicate IsGeminiServiceError(e: Exc) {
    e.GeminiServiceError? || e.GeminiRateLimitError?
  }

  /** The error raised when a handler reads `start_time` before it was assigned. */
  const UnboundStartTime: Exc :=
    OtherError("UnboundLocalError", "cannot access local variable 'start_time' where it is not associated with a value")

  /**
   * Python's `str(e)`. Every class here passes its message to the base
   * constructor, so the string is the message; a `ValueError` built with a
   * second argument prints as the tuple of both arguments.
   */
  function Str(e: Exc): string {
    match e
    case GeminiServiceError(m) => m
    case GeminiRateLimitError(m, _) => m
    case MeliExtractError(m) => m
    case ValueError(m, None) => m
    case ValueError(m, Some(xs)) => "(" + PyRepr(m) + ", " + PyListRepr(xs) + ")"
    case OtherError(_, m) => m
  }

  /** Escapes of Python's `repr` for one character, given the enclosing quote. */
  function EscapeChar(c: char, quote: char): string {
    if c == '\\' then "\\\\"
    else if c == quote then ['\\', quote]
    else if c == '\n' then "\\n"
    else if c == '\r' then "\\r"
    else if c == '\t' then "\\t"
    else [c]
  }

  function Escape(s: string, quote: char): string {
    if s == [] then [] else EscapeChar(s[0], quote) + Escape(s[1..], quote)
  }

  /**
   * Python's `repr` of a string: single quotes, unless the string contains a
   * single quote and no double quote.
   */
  function PyRepr(s: string): (r: string)
    ensures |r| >= 2
    ensures r[0] == r[|r| - 1] && (r[0] == '\'' || r[0] == '"')
  {
    var quote := if '\'' in s && '"' !in s then '"' else '\'';
    [quote] + Escape(s, quote) + [quote]
  }

  /** Python's `repr` of a list of strings. */
  function PyListRepr(xs: seq<string>): string {
    "[" + Join(", ", seq(|xs|, i requires 0 <= i < |xs| => PyRepr(xs[i]))) + "]"
  }

  /** The numeral's integer and fractional digits, split at its '.' if it has one. */
  function IntDigits(numeral: string): string {
    if numeral == [] || numeral[0] == '.' then [] else [numeral[0]] + IntDigits(numeral[1..])
  }

  function FracDigits(numeral: string): string {
    if numeral == [] then []
    else if numeral[0] == '.' then numeral[1..]
    else FracDigits(numeral[1..])
  }

  function DropLeadingZeros(s: string): string {
    if s != [] && s[0] == '0' then DropLeadingZeros(s[1..]) else s
  }

  function DropTrailingZeros(s: string): string {
    if s != [] && s[|s| - 1] == '0' then DropTrailingZeros(s[..|s| - 1]) else s
  }

  /**
   * The decimal rule by which the hint is printed: integer digits without
   * leading zeros (at least "0"), a '.', fraction digits without trailing
   * zeros (at least "0"); "30" prints "30.0", ".50" prints "0.5". This is how
   * `f"{x}"` prints the parsed float as long as the numeral has no more
   * significant digits than a double holds; no rounding is modelled.
   */
  function FloatText(r: RetryAfter): string {
    var i := DropLeadingZeros(IntDigits(r.numeral));
    var f := DropTrailingZeros(FracDigits(r.numeral));
    (if i == [] then "0" else i) + "." + (if f == [] then "0" else f)
  }

  /** f"{retry_after_seconds}": the float, or "None" when there is no hint. */
  function HintText(hint: Option<RetryAfter>): string {
    match hint
    case None => "None"
    case Some(r) => FloatText(r)
  }

  /**
   * A rate-limit error is caught as a service error, prints as its message,
   * has no hint unless one is given, and keeps the hint it is given.
   */
  lemma RateLimitErrorShape(m: string, hint: Option<RetryAfter>)
    ensures IsGeminiServiceError(GeminiRateLimitError(m, hint))
    ensures Str(GeminiRateLimitError(m, hint)) == m && Str(GeminiServiceError(m)) == m
    ensures GeminiRateLimitError(m).retryAfterSeconds == None
    ensures GeminiRateLimitError(m, hint).retryAfterSeconds == hint
    ensures HintText(GeminiRateLimitError(m).retryAfterSeconds) == "None"
  {
  }
}
