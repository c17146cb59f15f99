/** The advisory generator (src/nwa_hydro/tools/intelligence.py).

    The Gemini call is an input: `BackendCall` says whether it timed out,
    raised, or returned a response, and `loads` is `json.loads` applied to
    the reply text. From these the generator selects exactly one outcome per
    call and maps it to an `AgronomistInsight` in a fixed way. */
module Intelligence {
  import opened Wrappers
  import opened Schemas
  import opened PyText

  const DEFAULT_RISK: string := "Medium"
  const ANALYSIS_GENERATED: string := "Analysis generated."
  const API_ERROR: string := "API error"

  const LOW_ADVICE: string := "Low water demand. Standard irrigation schedule is adequate."
  const MEDIUM_ADVICE: string := "Moderate demand. Consider irrigation every 2-3 days."
  const HIGH_ADVICE: string := "High evapotranspiration. Daily irrigation recommended."

  const NO_KEY_SUMMARY: string := "API key missing"
  const NO_KEY_ADVICE: string := "Set GOOGLE_API_KEY to enable Gemini-powered insights."
  const TIMEOUT_SUMMARY: string := "Insight generation timed out."
  const TIMEOUT_ADVICE: string := "Try again or reduce request load."

  // ---------------------------------------------------------------------
  // Heuristic risk and the rule-based fallback

  /** `_parse_risk`: "High" when the text mentions "high" in any case (this
      is checked first, so it wins when both words occur), else "Low" when it
      mentions "low", else the default. */
  function ParseRisk(text: string): (risk: string)
    ensures risk == "High" <==> MentionsIgnoringCase(text, "HIGH")
    ensures risk == "Low" <==> !MentionsIgnoringCase(text, "HIGH") && MentionsIgnoringCase(text, "LOW")
    ensures risk == DEFAULT_RISK <==> !MentionsIgnoringCase(text, "HIGH") && !MentionsIgnoringCase(text, "LOW")
  {
    UpperContainsIffMentions(text, "HIGH");
    UpperContainsIffMentions(text, "LOW");
    var upper := Upper(text);
    if Contains(upper, "HIGH") then "High"
    else if Contains(upper, "LOW") then "Low"
    else DEFAULT_RISK
  }

  /** `_get_fallback_insight`: the half-open threshold ladder on ETo alone. */
  function FallbackInsight(eto: real, reason: string): (insight: AgronomistInsight)
    ensures insight.riskLevel == "Low" <==> eto < 3.0
    ensures insight.riskLevel == "Medium" <==> 3.0 <= eto < 5.0
    ensures insight.riskLevel == "High" <==> 5.0 <= eto
    ensures insight.advice == (if eto < 3.0 then LOW_ADVICE else if eto < 5.0 then MEDIUM_ADVICE else HIGH_ADVICE)
    ensures insight.summary == "Automated analysis (" + reason + ")."
    ensures insight.etoValue == eto
  {
    var risk := if eto < 3.0 then "Low" else if eto < 5.0 then "Medium" else "High";
    var advice := if eto < 3.0 then LOW_ADVICE else if eto < 5.0 then MEDIUM_ADVICE else HIGH_ADVICE;
    AgronomistInsight("Automated analysis (" + reason + ").", advice, risk, eto)
  }

  function RiskRank(risk: string): int
  {
    if risk == "Low" then 0 else if risk == "Medium" then 1 else 2
  }

  /** A higher ETo never gives a lower fallback risk. */
  lemma FallbackRiskMonotone(a: real, b: real, reason: string)
    requires a <= b
    ensures RiskRank(FallbackInsight(a, reason).riskLevel) <= RiskRank(FallbackInsight(b, reason).riskLevel)
  {
  }

  /** The ladder's boundaries: 3.0 is Medium and 5.0 is High. */
  lemma FallbackBoundaries(reason: string)
    ensures FallbackInsight(2.99, reason).riskLevel == "Low"
    ensures FallbackInsight(3.0, reason).riskLevel == "Medium"
    ensures FallbackInsight(4.99, reason).riskLevel == "Medium"
    ensures FallbackInsight(5.0, reason).riskLevel == "High"
  {
  }

  // ---------------------------------------------------------------------
  // The backend reply

  /** A candidate: its finish reason's name and the texts of its content's
      parts (absent content has no parts). */
  datatype Candidate = Candidate(finishReason: string, parts: seq<string>)

  datatype Response = Response(candidates: seq<Candidate>)

  /** What the awaited call did: timed out, raised any other exception, or
      returned a response. */
  datatype BackendCall = TimedOut | CallRaised | Responded(response: Response)

  /** The ValueErrors `_generate_with_timeout` raises on a reply it cannot use. */
  datatype ReplyError = NoCandidates | BlockedBySafety | EmptyContent

  /** `_generate_with_timeout`'s checks: the first part's text of the first
      candidate, unless there is no candidate, it was stopped by the safety
      filter, or it has no parts. */
  function ReplyText(response: Response): (r: Result<string, ReplyError>)
    ensures r == Err(NoCandidates) <==> response.candidates == []
    ensures r == Err(BlockedBySafety) <==>
              response.candidates != [] && response.candidates[0].finishReason == "SAFETY"
    ensures r.Ok? <==> response.candidates != [] && response.candidates[0].finishReason != "SAFETY" &&
                       response.candidates[0].parts != []
    ensures r.Ok? ==> r.value == response.candidates[0].parts[0]
  {
    if response.candidates == [] then Err(NoCandidates)
    else
      var candidate := response.candidates[0];
      if candidate.finishReason == "SAFETY" then Err(BlockedBySafety)
      else if candidate.parts == [] then Err(EmptyContent)
      else Ok(candidate.parts[0])
  }

  /** A JSON value as far as the generator looks at it: a string, or anything
      else (null, number, boolean, array, object). */
  datatype JsonValue = JString(s: string) | JNonString

  /** `json.loads(text)`: not JSON at all, JSON that is not an object, or an object. */
  datatype JsonLoad = NotJson | NotObject | Object(fields: map<string, JsonValue>)

  /** `dict.get(key, default)` */
  function Get(fields: map<string, JsonValue>, key: string, default: JsonValue): JsonValue
  {
    if key in fields then fields[key] else default
  }

  /** `a or b` on strings */
  function OrElse(a: string, b: string): string
  {
    if a != "" then a else b
  }

  /** What the try block leaves for the final construction: the three values
      it assigned, or the fallback when it raised anything but a timeout. */
  datatype Draft = Draft(summary: string, advice: string, riskLevel: JsonValue) | UseFallback

  /** The inner try: parse the reply text. A non-object or a non-string
      summary or advice makes `.get` or `.strip()` raise, which the outer
      handler turns into the fallback. */
  function DraftFromReply(text: string, loaded: JsonLoad): (draft: Draft)
    ensures draft.Draft? ==> draft.summary != ""
  {
    match loaded
    case NotJson => Draft(ANALYSIS_GENERATED, text, JString(ParseRisk(text)))
    case NotObject => UseFallback
    case Object(fields) =>
      var summary := Get(fields, "summary", JString(""));
      var advice := Get(fields, "advice", JString(""));
      if summary.JNonString? || advice.JNonString? then UseFallback
      else Draft(OrElse(Strip(summary.s), ANALYSIS_GENERATED), OrElse(Strip(advice.s), text),
                 Get(fields, "risk_level", JString(DEFAULT_RISK)))
  }

  function DraftFromBackend(call: BackendCall, loads: string -> JsonLoad): (draft: Draft)
    ensures draft.Draft? ==> draft.summary != ""
  {
    match call
    case TimedOut => Draft(TIMEOUT_SUMMARY, TIMEOUT_ADVICE, JString(DEFAULT_RISK))
    case CallRaised => UseFallback
    case Responded(response) =>
      match ReplyText(response)
      case Err(_) => UseFallback
      case Ok(text) => DraftFromReply(text, loads(text))
  }

  /** `os.getenv("GOOGLE_API_KEY")` is falsy: unset or empty. */
  predicate KeyMissing(apiKey: Option<string>)
  {
    apiKey.None? || apiKey.value == ""
  }

  function NoKeyInsight(eto: real): AgronomistInsight
  {
    AgronomistInsight(NO_KEY_SUMMARY, NO_KEY_ADVICE, "Unknown", eto)
  }

  /** What a call of the source produces: an insight, or the pydantic
      ValidationError that escapes when the risk level is not a string. */
  datatype Outcome = Returns(insight: AgronomistInsight) | RaisesValidationError

  /** A key is set and the reply passes the checks and parses to an object
      whose summary and advice are strings (or absent) but whose risk level
      is present and not a string. */
  predicate NonStringRiskReply(apiKey: Option<string>, call: BackendCall, loads: string -> JsonLoad)
  {
    && !KeyMissing(apiKey) && call.Responded? && ReplyText(call.response).Ok?
    && var l := loads(ReplyText(call.response).value);
       && l.Object?
       && Get(l.fields, "summary", JString("")).JString?
       && Get(l.fields, "advice", JString("")).JString?
       && "risk_level" in l.fields && l.fields["risk_level"].JNonString?
  }

  /** `generate_agronomist_insight` as written: the record is built after the
      try block, so a non-string risk level raises to the caller. */
  function GenerateInsightAsWritten(apiKey: Option<string>, etoResult: EToResult, call: BackendCall,
                                    loads: string -> JsonLoad): (r: Outcome)
    ensures r.Returns? ==> r.insight.etoValue == etoResult.eto
    ensures r.RaisesValidationError? <==> NonStringRiskReply(apiKey, call, loads)
  {
    if KeyMissing(apiKey) then Returns(NoKeyInsight(etoResult.eto))
    else
      match DraftFromBackend(call, loads)
      case UseFallback => Returns(FallbackInsight(etoResult.eto, API_ERROR))
      case Draft(summary, advice, JString(risk)) => Returns(AgronomistInsight(summary, advice, risk, etoResult.eto))
      case Draft(_, _, JNonString) => RaisesValidationError
  }

  /** `generate_agronomist_insight` with the record built inside the try, so
      that the validation failure reaches the catch-all handler like every
      other failure: the call always yields an insight, carrying the ETo it
      was asked about and a non-empty summary. */
  function GenerateInsight(apiKey: Option<string>, etoResult: EToResult, call: BackendCall,
                           loads: string -> JsonLoad): (insight: AgronomistInsight)
    ensures insight.etoValue == etoResult.eto
    ensures insight.summary != ""
  {
    match GenerateInsightAsWritten(apiKey, etoResult, call, loads)
    case Returns(insight) => insight
    case RaisesValidationError => FallbackInsight(etoResult.eto, API_ERROR)
  }

  // ---------------------------------------------------------------------
  // One lemma per branch

  /** Without a key the backend is never consulted: the result is the fixed
      "API key missing" insight whatever the backend would have done. */
  lemma NoKeyIgnoresBackend(apiKey: Option<string>, etoResult: EToResult,
                            call1: BackendCall, loads1: string -> JsonLoad,
                            call2: BackendCall, loads2: string -> JsonLoad)
    requires KeyMissing(apiKey)
    ensures GenerateInsight(apiKey, etoResult, call1, loads1) == GenerateInsight(apiKey, etoResult, call2, loads2)
    ensures GenerateInsight(apiKey, etoResult, call1, loads1) ==
              AgronomistInsight(NO_KEY_SUMMARY, NO_KEY_ADVICE, "Unknown", etoResult.eto)
  {
  }

  /** A reply that is a JSON object with string (or absent) summary and
      advice: a blank summary becomes "Analysis generated.", a blank advice
      becomes the raw reply, otherwise both are stripped; a missing risk level
      becomes "Medium" and a present one passes through unchanged. */
  lemma JsonObjectReply(apiKey: Option<string>, etoResult: EToResult, response: Response,
                        loads: string -> JsonLoad, summary: string, advice: string)
    requires !KeyMissing(apiKey) && ReplyText(response).Ok?
    requires var text := ReplyText(response).value;
             loads(text).Object? &&
             Get(loads(text).fields, "summary", JString("")) == JString(summary) &&
             Get(loads(text).fields, "advice", JString("")) == JString(advice) &&
             Get(loads(text).fields, "risk_level", JString(DEFAULT_RISK)).JString?
    ensures var text := ReplyText(response).value;
            var insight := GenerateInsight(apiKey, etoResult, Responded(response), loads);
            (AllSpace(summary) ==> insight.summary == ANALYSIS_GENERATED) &&
            (!AllSpace(summary) ==> insight.summary == Strip(summary)) &&
            (AllSpace(advice) ==> insight.advice == text) &&
            (!AllSpace(advice) ==> insight.advice == Strip(advice)) &&
            ("risk_level" !in loads(text).fields ==> insight.riskLevel == DEFAULT_RISK) &&
            ("risk_level" in loads(text).fields ==> JString(insight.riskLevel) == loads(text).fields["risk_level"])
  {
    StripEmptyIffAllSpace(summary);
    StripEmptyIffAllSpace(advice);
  }

  /** A reply that is not JSON is kept as advice, with the heuristic risk. */
  lemma ProseReply(apiKey: Option<string>, etoResult: EToResult, response: Response, loads: string -> JsonLoad)
    requires !KeyMissing(apiKey) && ReplyText(response).Ok?
    requires loads(ReplyText(response).value) == NotJson
    ensures GenerateInsight(apiKey, etoResult, Responded(response), loads) ==
              AgronomistInsight(ANALYSIS_GENERATED, ReplyText(response).value,
                                ParseRisk(ReplyText(response).value), etoResult.eto)
  {
  }

  /** A timeout gives the fixed timed-out insight with the default risk. */
  lemma TimeoutReply(apiKey: Option<string>, etoResult: EToResult, loads: string -> JsonLoad)
    requires !KeyMissing(apiKey)
    ensures GenerateInsight(apiKey, etoResult, TimedOut, loads) ==
              AgronomistInsight(TIMEOUT_SUMMARY, TIMEOUT_ADVICE, DEFAULT_RISK, etoResult.eto)
  {
  }

  /** Every other failure goes to the rule-based fallback: the call raising,
      no candidate, a safety block, empty content, JSON that is not an object,
      a summary or advice that is not a string. */
  lemma OtherFailuresUseFallback(apiKey: Option<string>, etoResult: EToResult, call: BackendCall,
                                 loads: string -> JsonLoad)
    requires !KeyMissing(apiKey)
    requires || call.CallRaised?
             || (call.Responded? && ReplyText(call.response).Err?)
             || (call.Responded? && ReplyText(call.response).Ok? &&
                 var loaded := loads(ReplyText(call.response).value);
                 || loaded.NotObject?
                 || (loaded.Object? && Get(loaded.fields, "summary", JString("")).JNonString?)
                 || (loaded.Object? && Get(loaded.fields, "advice", JString("")).JNonString?))
    ensures GenerateInsight(apiKey, etoResult, call, loads) == FallbackInsight(etoResult.eto, API_ERROR)
  {
  }

  /** The backend never appears in `riskLevel` except through a JSON
      object's "risk_level" string: every other branch writes one of Low,
      Medium, High or Unknown. */
  lemma RiskLevelOrigin(apiKey: Option<string>, etoResult: EToResult, call: BackendCall, loads: string -> JsonLoad)
    ensures var risk := GenerateInsight(apiKey, etoResult, call, loads).riskLevel;
            || risk in {"Low", "Medium", "High", "Unknown"}
            || (call.Responded? && ReplyText(call.response).Ok? &&
                loads(ReplyText(call.response).value).Object? &&
                Get(loads(ReplyText(call.response).value).fields, "risk_level", JString(DEFAULT_RISK)) == JString(risk))
  {
  }

  /** The advice is not guaranteed to be non-empty: an empty reply text that
      is not JSON becomes an empty advice. */
  lemma EmptyAdvicePossible(etoResult: EToResult)
    ensures var response := Response([Candidate("STOP", [""])]);
            GenerateInsight(Some("key"), etoResult, Responded(response), (text: string) => NotJson).advice == ""
  {
  }

  // ---------------------------------------------------------------------
  // The escaping validation error

  /** As written, a JSON object whose "risk_level" is null makes the call
      raise instead of returning an insight. */
  lemma AsWrittenRaisesOnNonStringRisk(etoResult: EToResult)
    ensures var response := Response([Candidate("STOP", ["{\"risk_level\": null}"])]);
            var loads := (text: string) => Object(map["risk_level" := JNonString]);
            GenerateInsightAsWritten(Some("key"), etoResult, Responded(response), loads) == RaisesValidationError
  {
  }

  /** The corrected generator agrees with the source wherever the source
      returns, and gives the rule-based fallback where the source raised. */
  lemma CorrectionOnlyReplacesTheRaise(apiKey: Option<string>, etoResult: EToResult, call: BackendCall,
                                       loads: string -> JsonLoad)
    ensures match GenerateInsightAsWritten(apiKey, etoResult, call, loads)
            case Returns(insight) => GenerateInsight(apiKey, etoResult, call, loads) == insight
            case RaisesValidationError =>
              GenerateInsight(apiKey, etoResult, call, loads) == FallbackInsight(etoResult.eto, API_ERROR)
  {
  }
}
