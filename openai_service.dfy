/**
 * The OpenAI back end of rule evaluation: the prompt (rules cleaned of
 * line breaks), the request headers, and what is returned for each outcome
 * of the call, over the HTTP API and over the SDK client.
 */
module OpenAiService {
  import opened Wrappers
  import opened Text
  import opened JsonValues
  import opened Verdicts
  import opened Prompts

  const ChatCompletionsUrl: string := "https://api.openai.com/v1/chat/completions"
  const ParsingErrorPrefix: string := "Parsing error: "

  /** `str(e)` for `None.strip()`, when the completion carries no content. */
  const NoneStripError: string := "'NoneType' object has no attribute 'strip'"

  /** `build_gpt_prompt`: each rule's line breaks become spaces, then the rules are numbered. */
  function BuildGptPrompt(t: Template, transcript: string, rules: seq<string>): (p: string)
    requires IsAuditTemplate(t)
    ensures p == t.opening + RuleBlock(CleanRules(rules)) + t.beforeTranscript + transcript + t.closing
  {
    PromptLayout(t, CleanRules(rules), transcript);
    Prompt(t, CleanRules(rules), transcript)
  }

  /**
   * Whatever the rules contain, the prompt lists every rule on one line,
   * numbered from 1 in input order, and quotes the transcript verbatim.
   */
  lemma PromptListsEveryRule(t: Template, transcript: string, rules: seq<string>)
    requires IsAuditTemplate(t)
    ensures ReadRuleBlock(RuleBlock(CleanRules(rules))) == Some(CleanRules(rules))
    ensures Contains(BuildGptPrompt(t, transcript, rules), Quotes + transcript + Quotes)
  {
    RuleBlockRoundTrip(CleanRules(rules));
    PromptQuotesTranscript(t, CleanRules(rules), transcript);
  }

  /**
   * The request headers; `f"Bearer {api_key}"` renders a missing key as
   * `None`, and the project header is added only for a non-empty project id.
   */
  method RequestHeaders(apiKey: Option<string>, projectId: Option<string>) returns (headers: map<string, string>)
    ensures headers.Keys == {"Content-Type", "Authorization"} + (if projectId.Some? && projectId.value != [] then {"OpenAI-Project"} else {})
    ensures headers["Content-Type"] == "application/json"
    ensures headers["Authorization"] == "Bearer " + (if apiKey.Some? then apiKey.value else "None")
    ensures "OpenAI-Project" in headers ==> headers["OpenAI-Project"] == projectId.value
  {
    headers := map["Content-Type" := "application/json",
                   "Authorization" := "Bearer " + (if apiKey.Some? then apiKey.value else "None")];
    if projectId.Some? && projectId.value != [] {
      headers := headers["OpenAI-Project" := projectId.value];
    }
  }

  /** An HTTP response: the status code and the body text. */
  datatype HttpResponse = HttpResponse(status: int, text: string)

  /**
   * The tail of `evaluate_rules_with_gpt_using_requests` once the POST has
   * answered: a non-200 status gives one `Error` per rule with the body as
   * reason; otherwise the message content is parsed, and any failure on
   * the way gives one `Error` per rule with a `Parsing error: ` reason.
   */
  function ResponseVerdicts(rules: seq<string>, response: HttpResponse, parse: Parser): (v: Json)
    ensures response.status != 200 ==> v == ErrorVerdicts(rules, response.text)
  {
    if response.status != 200 then ErrorVerdicts(rules, response.text)
    else
      var content := match parse(response.text)
        case Err(e) => Err(e)
        case Ok(body) => MessageContent(body);
      match content
      case Err(e) => ErrorVerdicts(rules, ParsingErrorPrefix + e)
      case Ok(c) =>
        match Loads(parse, c)
        case Err(e) => ErrorVerdicts(rules, ParsingErrorPrefix + e)
        case Ok(parsed) => parsed
  }

  /** The content the model returned, parsed, when every step succeeds. */
  function ParsedContent(response: HttpResponse, parse: Parser): Option<Json> {
    if response.status != 200 then None
    else match parse(response.text)
      case Err(_) => None
      case Ok(body) =>
        match MessageContent(body)
        case Err(_) => None
        case Ok(c) => if c.JString? && parse(c.s).Ok? then Some(parse(c.s).value) else None
  }

  /**
   * Fail closed, else pass through: the answer is either the model's own
   * parsed content, returned unchecked (even an empty list or a non-list),
   * or one `Error` verdict per input rule, in order.
   */
  lemma ResponseVerdictsFailClosed(rules: seq<string>, response: HttpResponse, parse: Parser)
    ensures ParsedContent(response, parse).Some? ==> ResponseVerdicts(rules, response, parse) == ParsedContent(response, parse).value
    ensures ParsedContent(response, parse).None? ==> FailClosed(ResponseVerdicts(rules, response, parse), rules)
    ensures response.status == 200 && ParsedContent(response, parse).None? ==>
      exists e :: ResponseVerdicts(rules, response, parse) == ErrorVerdicts(rules, ParsingErrorPrefix + e)
  {
    var v := ResponseVerdicts(rules, response, parse);
    if response.status != 200 {
      ErrorVerdictsFailClosed(rules, response.text);
    } else if ParsedContent(response, parse).None? {
      var e :| v == ErrorVerdicts(rules, ParsingErrorPrefix + e);
      ErrorVerdictsFailClosed(rules, ParsingErrorPrefix + e);
    }
  }

  /** The request `evaluate_rules_with_gpt_using_requests` sends. */
  datatype ChatRequest = ChatRequest(url: string, headers: map<string, string>, prompt: string)

  /**
   * `evaluate_rules_with_gpt_using_requests`: `post` is the outcome of the
   * POST; an exception it raises is not caught and escapes as `Err`.
   */
  method EvaluateRulesWithGptUsingRequests(t: Template, transcript: string, rules: seq<string>,
                                           apiKey: Option<string>, projectId: Option<string>,
                                           post: Result<HttpResponse, string>, parse: Parser)
    returns (request: ChatRequest, r: Result<Json, string>)
    requires IsAuditTemplate(t)
    ensures request.url == ChatCompletionsUrl
    ensures request.prompt == BuildGptPrompt(t, transcript, rules)
    ensures ("OpenAI-Project" in request.headers) <==> projectId.Some? && projectId.value != []
    ensures post.Err? ==> r == Err(post.error)
    ensures post.Ok? ==> r == Ok(ResponseVerdicts(rules, post.value, parse))
  {
    var prompt := BuildGptPrompt(t, transcript, rules);
    var headers := RequestHeaders(apiKey, projectId);
    request := ChatRequest(ChatCompletionsUrl, headers, prompt);
    match post
    case Err(e) =>
      r := Err(e);
    case Ok(response) =>
      r := Ok(ResponseVerdicts(rules, response, parse));
  }

  // ---------------------------------------------------------------- over the SDK client

  /** The SDK call: a completion whose message content may be `None`, or the exception the client raised. */
  datatype SdkOutcome = Completion(content: Option<string>) | ClientError(message: string)

  /** `result_text.strip().strip('`').strip()` */
  function Unfenced(content: string): (r: string)
    ensures NoSpaceAtEnds(r)
  {
    Strip(StripChar(Strip(content), '`'))
  }

  /**
   * `evaluate_rules_with_gpt`. On invalid JSON the code calls
   * `logger.warning` and falls off the end (returning `None`, `JNull`
   * here); `loggerFailure` is the exception that call raises, if any, which
   * the outer handler turns into one `Error` per rule.
   */
  function EvaluateRulesWithGpt(t: Template, transcript: string, rules: seq<string>,
                                complete: string -> SdkOutcome, parse: Parser, loggerFailure: Option<string>): (v: Json)
    requires IsAuditTemplate(t)
    ensures var outcome := complete(BuildGptPrompt(t, transcript, rules));
      && (outcome.ClientError? ==> v == ErrorVerdicts(rules, outcome.message))
      && (outcome == Completion(None) ==> v == ErrorVerdicts(rules, NoneStripError))
      && (outcome.Completion? && outcome.content.Some? && parse(Unfenced(outcome.content.value)).Ok? ==>
            v == parse(Unfenced(outcome.content.value)).value)
  {
    match complete(BuildGptPrompt(t, transcript, rules))
    case ClientError(m) => ErrorVerdicts(rules, m)
    case Completion(None) => ErrorVerdicts(rules, NoneStripError)
    case Completion(Some(c)) =>
      match parse(Unfenced(c))
      case Ok(parsed) => parsed
      case Err(_) =>
        match loggerFailure
        case None => JNull
        case Some(m) => ErrorVerdicts(rules, m)
  }

  /**
   * The SDK variant fails closed too, except on invalid JSON when the
   * logger call returns: then the function returns `None`.
   */
  lemma SdkFailClosed(t: Template, transcript: string, rules: seq<string>,
                      complete: string -> SdkOutcome, parse: Parser, loggerFailure: Option<string>)
    requires IsAuditTemplate(t)
    ensures var outcome := complete(BuildGptPrompt(t, transcript, rules));
      var v := EvaluateRulesWithGpt(t, transcript, rules, complete, parse, loggerFailure);
      || (outcome.Completion? && outcome.content.Some? && parse(Unfenced(outcome.content.value)) == Ok(v))
      || (outcome.Completion? && outcome.content.Some? && parse(Unfenced(outcome.content.value)).Err?
          && loggerFailure.None? && v == JNull)
      || FailClosed(v, rules)
  {
    match complete(BuildGptPrompt(t, transcript, rules))
    case ClientError(m) => ErrorVerdictsFailClosed(rules, m);
    case Completion(None) => ErrorVerdictsFailClosed(rules, NoneStripError);
    case Completion(Some(c)) =>
      if parse(Unfenced(c)).Err? && loggerFailure.Some? {
        ErrorVerdictsFailClosed(rules, loggerFailure.value);
      }
  }

  /**
   * Stripping backticks does not remove a Markdown fence with a language
   * tag: the tag stays in front of the JSON that reaches the parser.
   */
  lemma TaggedFenceKeepsTag(body: string)
    requires body != [] && !IsSpace(body[0]) && !IsSpace(body[|body| - 1])
    ensures Unfenced("```json\n" + body + "\n```") == "json\n" + body
  {
    var fence := "```";
    var x := "json\n" + body;
    var h := x + "\n";
    var f := fence + h + fence;
    assert "```json\n" + body + "\n```" == f;
    assert f[0] == '`' && f[|f| - 1] == '`';
    NoSpaceAtEndsStrip(f);
    assert forall k :: 0 <= k < |fence| ==> fence[k] == '`';
    StripCharFront(fence, h + fence, '`');
    assert fence + h + fence == fence + (h + fence);
    assert h[0] == 'j' && h[|h| - 1] == '\n';
    StripCharBack(h, fence, '`');
    assert StripChar(h, '`') == h;
    assert h == [] + x + "\n";
    assert AllSpace("\n");
    assert x[|x| - 1] == body[|body| - 1];
    assert x[0] == 'j';
    StripPadded([], x, "\n");
  }

  lemma {:induction false} StripCharFront(p: string, s: string, c: char)
    requires forall k :: 0 <= k < |p| ==> p[k] == c
    ensures StripChar(p + s, c) == StripChar(s, c)
    decreases |p|
  {
    if p == [] {
      assert p + s == s;
    } else {
      assert (p + s)[1..] == p[1..] + s;
      StripCharFront(p[1..], s, c);
    }
  }

  lemma {:induction false} StripCharBack(s: string, q: string, c: char)
    requires s != [] && s[0] != c
    requires forall k :: 0 <= k < |q| ==> q[k] == c
    ensures StripChar(s + q, c) == StripChar(s, c)
    decreases |q|
  {
    if q == [] {
      assert s + q == s;
    } else {
      assert (s + q)[..|s + q| - 1] == s + q[..|q| - 1];
      StripCharBack(s, q[..|q| - 1], c);
    }
  }
}
