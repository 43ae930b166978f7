/** app/actions/parseResume.ts: the server action `parseResumeAction`. Its
    input guards run first, in order, and each returns a failure before any
    model call; the `generateObject` call is an oracle whose outcome is given
    (the profile it returns, or what it throws); a thrown `Error` is classified
    by the first of four substrings its message contains. */
module ParseResume {
  import opened Base
  import opened Text
  import opened Schema

  /** `ParseResumeInput`; `images` and `apiKey` may be missing at run time. */
  datatype Input = Input(images: Option<seq<string>>, apiKey: Option<string>, provider: string)

  /** What a `throw` delivers to the `catch`: an `Error` with its message, or any other value. */
  datatype Thrown = ErrorValue(message: string) | OtherValue

  /** The outcome of the awaited `generateObject` call. */
  datatype Outcome = Returned(profile: Profile) | Threw(thrown: Thrown)

  /** `ParseResumeResult` */
  datatype ParseResult = ParseResult(success: bool, data: Option<Profile>, error: Option<string>)

  const NoImages: string := "No images provided. Please upload a PDF first."
  const KeyRequired: string := "API key is required."
  const BadOpenAiKey: string := "Invalid OpenAI API key format. Keys should start with \"sk-\"."
  const BadGoogleKey: string := "Invalid Google API key format. Keys should start with \"AIzaSy\"."
  const Unsupported: string := "Unsupported provider. Please use \"openai\" or \"gemini\"."
  const InvalidKey: string := "Invalid API key. Please check your key and try again."
  const RateLimited: string := "Rate limit exceeded. Please wait a moment and try again."
  const QuotaExceeded: string := "API quota exceeded. Please check your account."
  const NoBilling: string := "Billing not enabled. Please enable billing for your API key."
  const Unknown: string := "An unknown error occurred during parsing."
  const ParsingFailed: string := "Parsing failed: "

  function Fail(message: string): ParseResult {
    ParseResult(false, None, Some(message))
  }

  /** The early returns before the `try`: the message of the first guard that fires. */
  function Guard(input: Input): Option<string> {
    if input.images.None? || |input.images.value| == 0 then Some(NoImages)
    else if input.apiKey.None? || |JsTrim(input.apiKey.value)| == 0 then Some(KeyRequired)
    else if input.provider == "openai" && !StartsWith(input.apiKey.value, "sk-") then Some(BadOpenAiKey)
    else if input.provider == "gemini" && !StartsWith(input.apiKey.value, "AIzaSy") then Some(BadGoogleKey)
    else None
  }

  /** The `catch` block. */
  function Classify(t: Thrown): string {
    match t
    case OtherValue => Unknown
    case ErrorValue(m) =>
      if Includes(m, "API key") || Includes(m, "API_KEY") then InvalidKey
      else if Includes(m, "rate limit") then RateLimited
      else if Includes(m, "insufficient_quota") || Includes(m, "quota") then QuotaExceeded
      else if Includes(m, "billing") then NoBilling
      else ParsingFailed + m
  }

  /** `parseResumeAction(input)` when the model call, if made, has `outcome`. */
  function ParseResumeAction(input: Input, outcome: Outcome): ParseResult {
    match Guard(input)
    case Some(message) => Fail(message)
    case None =>
      if input.provider != "openai" && input.provider != "gemini" then Fail(Unsupported)
      else
        match outcome
        case Returned(profile) => ParseResult(true, Some(profile), None)
        case Threw(t) => Fail(Classify(t))
  }

  /** True when the model is called at all. */
  predicate CallsModel(input: Input) {
    Guard(input).None? && (input.provider == "openai" || input.provider == "gemini")
  }

  // ---------------------------------------------------------------- guards

  /** Missing or empty images fail first, whatever the key and provider. */
  lemma NoImagesFirst(input: Input, outcome: Outcome)
    requires input.images.None? || input.images.value == []
    ensures ParseResumeAction(input, outcome) == Fail(NoImages)
  {
  }

  /** A missing or blank key fails next. */
  lemma KeyRequiredNext(input: Input, outcome: Outcome)
    requires input.images.Some? && input.images.value != []
    requires input.apiKey.None? || JsTrim(input.apiKey.value) == ""
    ensures ParseResumeAction(input, outcome) == Fail(KeyRequired)
  {
  }

  /** The key prefix is checked per provider, on the key as given (not trimmed). */
  lemma KeyPrefixChecked(input: Input, outcome: Outcome)
    requires input.images.Some? && input.images.value != []
    requires input.apiKey.Some? && JsTrim(input.apiKey.value) != ""
    ensures input.provider == "openai" && !StartsWith(input.apiKey.value, "sk-") ==> ParseResumeAction(input, outcome) == Fail(BadOpenAiKey)
    ensures input.provider == "gemini" && !StartsWith(input.apiKey.value, "AIzaSy") ==> ParseResumeAction(input, outcome) == Fail(BadGoogleKey)
  {
  }

  /** A key with a leading space passes the blank check but fails the prefix check. */
  lemma UntrimmedKeyRefused(images: seq<string>, outcome: Outcome)
    requires images != []
    ensures ParseResumeAction(Input(Some(images), Some(" sk-1"), "openai"), outcome) == Fail(BadOpenAiKey)
  {
    var key := " sk-1";
    assert !StartsWith(key, "sk-") by { assert key[0] == ' '; }
    assert IsJsSpace(key[0]) && !IsJsSpace(key[1]);
    assert LeadCount(key, IsJsSpace) == 1;
    assert JsTrim(key)[0] == 's';
  }

  /** An unsupported provider skips the prefix checks and then fails without a model call. */
  lemma UnsupportedProvider(input: Input, outcome: Outcome)
    requires input.images.Some? && input.images.value != []
    requires input.apiKey.Some? && JsTrim(input.apiKey.value) != ""
    requires input.provider != "openai" && input.provider != "gemini"
    ensures ParseResumeAction(input, outcome) == Fail(Unsupported)
    ensures !CallsModel(input)
  {
  }

  /** Whenever the model is not called, the outcome of the call does not matter. */
  lemma NoCallNoDependence(input: Input, o1: Outcome, o2: Outcome)
    requires !CallsModel(input)
    ensures ParseResumeAction(input, o1) == ParseResumeAction(input, o2)
    ensures !ParseResumeAction(input, o1).success
  {
  }

  /** `success` holds exactly on the path that returns the model's object, and
      a result carries data or an error, never both. */
  lemma SuccessOnlyWithData(input: Input, outcome: Outcome)
    ensures var r := ParseResumeAction(input, outcome);
      && (r.success <==> CallsModel(input) && outcome.Returned?)
      && (r.success ==> r.data == Some(outcome.profile) && r.error.None?)
      && (!r.success ==> r.data.None? && r.error.Some?)
  {
  }

  // ---------------------------------------------------------------- classification

  /** The classification takes the first rule that matches, in source order. */
  lemma ClassifyFirstMatch(m: string)
    ensures Contains(m, "API key") || Contains(m, "API_KEY") ==> Classify(ErrorValue(m)) == InvalidKey
    ensures !Contains(m, "API key") && !Contains(m, "API_KEY") && Contains(m, "rate limit") ==> Classify(ErrorValue(m)) == RateLimited
    ensures !Contains(m, "API key") && !Contains(m, "API_KEY") && !Contains(m, "rate limit") && Contains(m, "quota") ==> Classify(ErrorValue(m)) == QuotaExceeded
    ensures !Contains(m, "API key") && !Contains(m, "API_KEY") && !Contains(m, "rate limit") && !Contains(m, "quota") && Contains(m, "billing") ==> Classify(ErrorValue(m)) == NoBilling
    ensures !Contains(m, "API key") && !Contains(m, "API_KEY") && !Contains(m, "rate limit") && !Contains(m, "quota") && !Contains(m, "billing") ==> Classify(ErrorValue(m)) == ParsingFailed + m
  {
    if Contains(m, "insufficient_quota") {
      InsufficientQuotaIsQuota(m);
    }
  }

  /** The "insufficient_quota" test adds nothing: such a message also contains "quota". */
  lemma InsufficientQuotaIsQuota(m: string)
    requires Contains(m, "insufficient_quota")
    ensures Contains(m, "quota")
  {
    var w := "insufficient_quota";
    assert OccursAt(w, "quota", 13) by { assert w[13..18] == "quota"; }
    ContainsTrans(m, w, "quota");
  }

  /** A thrown value that is not an `Error` gets the fixed message. */
  lemma NonErrorUnknown(input: Input)
    requires CallsModel(input)
    ensures ParseResumeAction(input, Threw(OtherValue)) == Fail(Unknown)
  {
  }

  /** A message none of the rules match is passed on after "Parsing failed: ". */
  lemma OtherErrorsPassedOn(input: Input, m: string)
    requires CallsModel(input)
    requires !Contains(m, "API key") && !Contains(m, "API_KEY") && !Contains(m, "rate limit") && !Contains(m, "quota") && !Contains(m, "billing")
    ensures ParseResumeAction(input, Threw(ErrorValue(m))) == Fail(ParsingFailed + m)
    ensures StartsWith(ParseResumeAction(input, Threw(ErrorValue(m))).error.value, ParsingFailed)
  {
    ClassifyFirstMatch(m);
    assert (ParsingFailed + m)[..|ParsingFailed|] == ParsingFailed;
  }
}
