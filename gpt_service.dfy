/**
 * The OpenAI-SDK and local-LLM helpers of the GPT service: rule evaluation
 * over the SDK client, and extraction of claim fields from a transcript
 * with either back end.
 */
module GptService {
  import opened Wrappers
  import opened Text
  import opened JsonValues
  import opened Verdicts
  import opened Prompts
  import opened OpenAiService
  import LlmService

  /** What Python says when a `ChatCompletion` object is indexed with `[...]`. */
  const NotSubscriptable: string := "'ChatCompletion' object is not subscriptable"
  const ReturnOnlyJson: string := "\n\nReturn only valid JSON."
  const RawOutputKey: string := "raw_output"
  const ErrorKey: string := "error"

  // ---------------------------------------------------------------- rule evaluation

  /** The SDK's answer to the rule prompt `build_gpt_prompt` makes from the transcript and the rules. */
  function RuleCompletion(t: Template, transcript: string, rules: seq<string>, complete: string -> SdkOutcome): SdkOutcome
    requires IsAuditTemplate(t)
  {
    complete(LlmService.BuildGptPrompt(t, transcript, rules))
  }

  /**
   * `evaluate_rules_with_gpt` as written: the SDK returns a `ChatCompletion`
   * object, which `response['choices']` cannot index, so the `TypeError`
   * lands in the handler whatever the model answered.
   */
  function EvaluateRulesWithGptAsWritten(t: Template, transcript: string, rules: seq<string>,
                                         complete: string -> SdkOutcome, parse: Parser): (v: Json)
    requires IsAuditTemplate(t)
    ensures FailClosed(v, rules)
    ensures var outcome := RuleCompletion(t, transcript, rules, complete);
      v == ErrorVerdicts(rules, if outcome.ClientError? then outcome.message else NotSubscriptable)
  {
    var outcome := RuleCompletion(t, transcript, rules, complete);
    ErrorVerdictsFailClosed(rules, if outcome.ClientError? then outcome.message else NotSubscriptable);
    match outcome
    case ClientError(m) => ErrorVerdicts(rules, m)
    case Completion(_) => ErrorVerdicts(rules, NotSubscriptable)
  }

  /**
   * `evaluate_rules_with_gpt` with the content read by attribute, as the
   * other SDK call sites do: the parsed answer, or one `Error` per rule.
   * `json.loads(None)` raises `TypeError`.
   */
  function EvaluateRulesWithGpt(t: Template, transcript: string, rules: seq<string>,
                                complete: string -> SdkOutcome, parse: Parser): (v: Json)
    requires IsAuditTemplate(t)
    ensures var outcome := RuleCompletion(t, transcript, rules, complete);
      outcome.Completion? && outcome.content.Some? && parse(outcome.content.value).Ok? ==>
        v == parse(outcome.content.value).value
    ensures var outcome := RuleCompletion(t, transcript, rules, complete);
      outcome.ClientError? ==> v == ErrorVerdicts(rules, outcome.message)
  {
    match RuleCompletion(t, transcript, rules, complete)
    case ClientError(m) => ErrorVerdicts(rules, m)
    case Completion(None) => ErrorVerdicts(rules, TypeError)
    case Completion(Some(c)) =>
      match parse(c)
      case Ok(parsed) => parsed
      case Err(e) => ErrorVerdicts(rules, e)
  }

  /** The corrected evaluation answers with what the model said whenever it parses, and fails closed otherwise. */
  lemma GptAnswersOrFailsClosed(t: Template, transcript: string, rules: seq<string>,
                                complete: string -> SdkOutcome, parse: Parser)
    requires IsAuditTemplate(t)
    ensures var outcome := RuleCompletion(t, transcript, rules, complete);
      var v := EvaluateRulesWithGpt(t, transcript, rules, complete, parse);
      || (outcome.Completion? && outcome.content.Some? && parse(outcome.content.value) == Ok(v))
      || FailClosed(v, rules)
  {
    match RuleCompletion(t, transcript, rules, complete)
    case ClientError(m) => ErrorVerdictsFailClosed(rules, m);
    case Completion(None) => ErrorVerdictsFailClosed(rules, TypeError);
    case Completion(Some(c)) =>
      if parse(c).Err? {
        ErrorVerdictsFailClosed(rules, parse(c).error);
      }
  }

  /**
   * A model that answers `[]` to the prompt for one rule: the code as
   * written reports an `Error` verdict for the rule instead of the empty
   * list the model gave.
   */
  lemma AsWrittenDropsAnswer(t: Template, transcript: string, parse: Parser)
    requires IsAuditTemplate(t) && parse("[]") == Ok(JList([]))
    ensures EvaluateRulesWithGpt(t, transcript, ["r"], _ => Completion(Some("[]")), parse) == JList([])
    ensures EvaluateRulesWithGptAsWritten(t, transcript, ["r"], _ => Completion(Some("[]")), parse)
      == JList([Verdict("r", ErrorResult, NotSubscriptable)])
  {
    var v := EvaluateRulesWithGptAsWritten(t, transcript, ["r"], _ => Completion(Some("[]")), parse);
    assert v.items == [Verdict("r", ErrorResult, NotSubscriptable)];
  }

  // ---------------------------------------------------------------- field extraction

  /** The OpenAI extraction prompt: the extraction template, the transcript, then the JSON-only reminder. */
  function ExtractionPrompt(template: string, transcript: string): string {
    template + transcript + ReturnOnlyJson
  }

  /** Recovers the transcript from an extraction prompt built on `template`. */
  function TranscriptOfPrompt(template: string, prompt: string): (r: Option<string>)
    ensures r.Some? ==> ExtractionPrompt(template, r.value) == prompt
  {
    if |template| + |ReturnOnlyJson| <= |prompt| && template <= prompt
       && prompt[|prompt| - |ReturnOnlyJson|..] == ReturnOnlyJson
    then
      var t := prompt[|template|..|prompt| - |ReturnOnlyJson|];
      assert prompt == template + t + ReturnOnlyJson by {
        assert prompt == prompt[..|template|] + prompt[|template|..|prompt| - |ReturnOnlyJson|] + prompt[|prompt| - |ReturnOnlyJson|..];
      }
      Some(t)
    else None
  }

  /** The prompt carries the transcript unchanged, whatever it contains. */
  lemma ExtractionPromptRoundTrip(template: string, transcript: string)
    ensures TranscriptOfPrompt(template, ExtractionPrompt(template, transcript)) == Some(transcript)
  {
    var p := ExtractionPrompt(template, transcript);
    assert p[..|template|] == template;
    assert p[|p| - |ReturnOnlyJson|..] == ReturnOnlyJson;
    assert p[|template|..|p| - |ReturnOnlyJson|] == transcript;
  }

  function RawOutput(output: string): Json {
    JDict(map[RawOutputKey := JString(output)])
  }

  function RawOutputWithError(output: string, error: string): Json {
    JDict(map[RawOutputKey := JString(output), ErrorKey := JString(error)])
  }

  /**
   * `extract_audit_fields_from_text_using_openai`: `complete` stands for the
   * SDK call on a prompt. The reply's stripped content is parsed as JSON,
   * or wrapped as `raw_output` when it does not parse. The call itself and
   * a `None` content are outside the `try`, so they raise (`Err`).
   */
  function ExtractUsingOpenAi(template: string, transcript: string, complete: string -> SdkOutcome, parse: Parser)
    : (r: Result<Json, string>)
    ensures var outcome := complete(ExtractionPrompt(template, transcript));
      && (outcome.ClientError? ==> r == Err(outcome.message))
      && (outcome == Completion(None) ==> r == Err(NoneStripError))
      && (outcome.Completion? && outcome.content.Some? ==> r.Ok?)
  {
    match complete(ExtractionPrompt(template, transcript))
    case ClientError(m) => Err(m)
    case Completion(None) => Err(NoneStripError)
    case Completion(Some(c)) =>
      var content := Strip(c);
      match parse(content)
      case Ok(v) => Ok(v)
      case Err(_) => Ok(RawOutput(content))
  }

  /** Nothing the model says is lost: the result is its parse, or its text kept verbatim after stripping. */
  lemma OpenAiExtractionKeepsAnswer(template: string, transcript: string, complete: string -> SdkOutcome,
                                    parse: Parser, c: string)
    requires complete(ExtractionPrompt(template, transcript)) == Completion(Some(c))
    ensures var r := ExtractUsingOpenAi(template, transcript, complete, parse);
      && r.Ok?
      && (|| parse(Strip(c)) == r
          || (parse(Strip(c)).Err? && r.value.JDict? && r.value.fields == map[RawOutputKey := JString(Strip(c))]))
      && NoSpaceAtEnds(Strip(c))
  {
  }

  /**
   * `extract_audit_fields_from_text_using_local_llm`. Its prompt is the
   * template followed by the transcript, without the reminder the OpenAI
   * variant appends. Every failure is caught: `raw_output` is `""` when the
   * failure came before `output` was bound, the stripped output otherwise.
   */
  function ExtractUsingLocal(response: Result<Json, string>, parse: Parser): (r: Json)
    ensures response.Err? ==> r == RawOutputWithError([], response.error)
  {
    match response
    case Err(e) => RawOutputWithError([], e)
    case Ok(j) =>
      match MessageContent(j)
      case Err(e) => RawOutputWithError([], e)
      case Ok(c) =>
        if c.JNull? then RawOutputWithError([], NoneStripError)
        else if !c.JString? then RawOutputWithError([], AttributeError)
        else
          var output := Strip(c.s);
          match parse(output)
          case Ok(v) => v
          case Err(e) => RawOutputWithError(output, e)
  }

  /** The local extraction never raises: it returns the parsed output or a dictionary naming the error. */
  lemma LocalExtractionReports(response: Result<Json, string>, parse: Parser)
    ensures var r := ExtractUsingLocal(response, parse);
      || (response.Ok? && MessageContent(response.value).Ok? && MessageContent(response.value).value.JString?
          && parse(Strip(MessageContent(response.value).value.s)) == Ok(r))
      || (r.JDict? && r.fields.Keys == {RawOutputKey, ErrorKey}
          && r.fields[RawOutputKey].JString?
          && (r.fields[RawOutputKey].s != [] ==>
                response.Ok? && MessageContent(response.value).Ok? && MessageContent(response.value).value.JString?
                && r.fields[RawOutputKey].s == Strip(MessageContent(response.value).value.s)))
  {
  }
}
