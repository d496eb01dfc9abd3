/**
 * The local-LLM back end of rule evaluation: the streamed answer is
 * accumulated and stripped, the model is asked a second time when the
 * first answer is empty, and the parsed answer is accepted only when it is
 * a list of `{rule, result, reason}` dictionaries; otherwise every rule
 * gets an `Error` verdict.
 */
module LlmService {
  import opened Wrappers
  import opened Text
  import opened JsonValues
  import opened Verdicts
  import opened Prompts

  const CallFailurePrefix: string := "LLM call failed: "
  const ParseFailurePrefix: string := "LLM parsing failed: "
  const NotAList: string := "Parsed LLM output is not a list"
  const InvalidItemPrefix: string := "Invalid item structure in: "

  /** `build_gpt_prompt`: the rules are numbered as given, without removing line breaks. */
  function BuildGptPrompt(t: Template, transcript: string, rules: seq<string>): (p: string)
    requires IsAuditTemplate(t)
    ensures p == t.opening + RuleBlock(rules) + t.beforeTranscript + transcript + t.closing
  {
    PromptLayout(t, rules, transcript);
    Prompt(t, rules, transcript)
  }

  /** The rules can be read back from the prompt's rule block only when none of them spans lines. */
  lemma PromptListsOneLineRules(t: Template, transcript: string, rules: seq<string>)
    requires IsAuditTemplate(t) && OneLineEach(rules)
    ensures ReadRuleBlock(RuleBlock(rules)) == Some(rules)
    ensures Contains(BuildGptPrompt(t, transcript, rules), Quotes + transcript + Quotes)
  {
    RuleBlockRoundTrip(rules);
    PromptQuotesTranscript(t, rules, transcript);
  }

  // ---------------------------------------------------------------- call_llm

  /**
   * What one streamed chunk adds to `output_chunks`: `delta['content']`
   * when `'choices' in chunk and 'delta' in chunk['choices'][0]` and the
   * delta has a content; an exception raised by those tests is `Err`.
   */
  function ChunkPiece(chunk: Json): Result<seq<Json>, string> {
    match HasKey(chunk, "choices")
    case Err(e) => Err(e)
    case Ok(false) => Ok([])
    case Ok(true) =>
      match At(chunk, "choices")
      case Err(e) => Err(e)
      case Ok(choices) =>
        match Nth(choices, 0)
        case Err(e) => Err(e)
        case Ok(first) =>
          match HasKey(first, "delta")
          case Err(e) => Err(e)
          case Ok(false) => Ok([])
          case Ok(true) =>
            match At(first, "delta")
            case Err(e) => Err(e)
            case Ok(delta) =>
              match HasKey(delta, "content")
              case Err(e) => Err(e)
              case Ok(false) => Ok([])
              case Ok(true) =>
                match At(delta, "content")
                case Err(e) => Err(e)
                case Ok(c) => Ok([c])
  }

  /** `output_chunks` after the loop has consumed `chunks`, or the first exception it raised. */
  function Pieces(chunks: seq<Json>): Result<seq<Json>, string>
    decreases |chunks|
  {
    if chunks == [] then Ok([])
    else match Pieces(chunks[..|chunks| - 1])
      case Err(e) => Err(e)
      case Ok(ps) =>
        match ChunkPiece(chunks[|chunks| - 1])
        case Err(e) => Err(e)
        case Ok(p) => Ok(ps + p)
  }

  /** `''.join(pieces)`: every piece must be a string. */
  function JoinPieces(pieces: seq<Json>): (r: Result<string, string>)
    ensures r.Ok? <==> forall i :: 0 <= i < |pieces| ==> pieces[i].JString?
    decreases |pieces|
  {
    if pieces == [] then Ok([])
    else if !pieces[0].JString? then Err(TypeError)
    else match JoinPieces(pieces[1..])
      case Err(e) =>
        assert exists i :: 0 <= i < |pieces| - 1 && !pieces[1..][i].JString?;
        Err(e)
      case Ok(rest) =>
        assert forall i :: 1 <= i < |pieces| ==> pieces[1..][i - 1] == pieces[i];
        Ok(pieces[0].s + rest)
  }

  /** The value of `call_llm()` for a stream: the stripped text, or the `RuntimeError` message it raises. */
  function CallOutcome(stream: Result<seq<Json>, string>): (r: Result<string, string>)
    ensures r.Ok? ==> NoSpaceAtEnds(r.value)
    ensures r.Err? ==> CallFailurePrefix <= r.error
  {
    match stream
    case Err(e) => Err(CallFailurePrefix + e)
    case Ok(chunks) =>
      match Pieces(chunks)
      case Err(e) => Err(CallFailurePrefix + e)
      case Ok(ps) =>
        match JoinPieces(ps)
        case Err(e) => Err(CallFailurePrefix + e)
        case Ok(s) => Ok(Strip(s))
  }

  /**
   * `call_llm()`: `stream` is what `create_chat_completion(..., stream=True)`
   * yields, or the exception raised while creating or iterating it.
   */
  method CallLlm(stream: Result<seq<Json>, string>) returns (r: Result<string, string>)
    ensures r == CallOutcome(stream)
  {
    if stream.Err? {
      return Err(CallFailurePrefix + stream.error);
    }
    var chunks := stream.value;
    var outputChunks: seq<Json> := [];
    var i := 0;
    while i < |chunks|
      invariant 0 <= i <= |chunks|
      invariant Pieces(chunks[..i]) == Ok(outputChunks)
    {
      assert chunks[..i + 1][..i] == chunks[..i];
      var piece := ChunkPiece(chunks[i]);
      if piece.Err? {
        assert Pieces(chunks[..i + 1]).Err?;
        PiecesErrStays(chunks, i + 1);
        return Err(CallFailurePrefix + piece.error);
      }
      outputChunks := outputChunks + piece.value;
      i := i + 1;
    }
    assert chunks[..|chunks|] == chunks;
    var joined := JoinPieces(outputChunks);
    r := if joined.Ok? then Ok(Strip(joined.value)) else Err(CallFailurePrefix + joined.error);
  }

  /** The first failing chunk decides the error, whatever follows it. */
  lemma {:induction false} PiecesErrStays(chunks: seq<Json>, k: nat)
    requires k <= |chunks| && Pieces(chunks[..k]).Err?
    ensures Pieces(chunks) == Pieces(chunks[..k])
    decreases |chunks| - k
  {
    if k < |chunks| {
      assert chunks[..k + 1][..k] == chunks[..k];
      PiecesErrStays(chunks, k + 1);
    } else {
      assert chunks[..k] == chunks;
    }
  }

  /** A chunk of the usual shape: a dictionary whose first choice has a dictionary delta with string content, if any. */
  predicate UsualChunk(c: Json) {
    c.JDict?
    && ("choices" in c.fields ==>
      c.fields["choices"].JList? && c.fields["choices"].items != []
      && var first := c.fields["choices"].items[0];
         first.JDict?
         && ("delta" in first.fields ==>
           first.fields["delta"].JDict?
           && ("content" in first.fields["delta"].fields ==> first.fields["delta"].fields["content"].JString?)))
  }

  /** The text a usual chunk contributes: its content, or nothing. */
  function ChunkText(c: Json): string
    requires UsualChunk(c)
  {
    if "choices" in c.fields && "delta" in c.fields["choices"].items[0].fields
       && "content" in c.fields["choices"].items[0].fields["delta"].fields
    then c.fields["choices"].items[0].fields["delta"].fields["content"].s
    else []
  }

  function StreamText(chunks: seq<Json>): string
    requires forall i :: 0 <= i < |chunks| ==> UsualChunk(chunks[i])
  {
    if chunks == [] then [] else StreamText(chunks[..|chunks| - 1]) + ChunkText(chunks[|chunks| - 1])
  }

  lemma UsualChunkPiece(c: Json)
    requires UsualChunk(c)
    ensures ChunkPiece(c).Ok? && JoinPieces(ChunkPiece(c).value) == Ok(ChunkText(c))
  {
    if "choices" in c.fields && "delta" in c.fields["choices"].items[0].fields
       && "content" in c.fields["choices"].items[0].fields["delta"].fields
    {
      var p := [JString(ChunkText(c))];
      assert ChunkPiece(c) == Ok(p);
      assert p[1..] == [];
      assert ChunkText(c) + [] == ChunkText(c);
      assert JoinPieces(p) == Ok(ChunkText(c) + []);
    } else {
      assert ChunkPiece(c) == Ok([]);
    }
  }

  lemma {:induction false} JoinPiecesAppend(a: seq<Json>, b: seq<Json>)
    requires JoinPieces(a).Ok? && JoinPieces(b).Ok?
    ensures JoinPieces(a + b) == Ok(JoinPieces(a).value + JoinPieces(b).value)
    decreases |a|
  {
    if a == [] {
      assert a + b == b;
      assert [] + JoinPieces(b).value == JoinPieces(b).value;
    } else {
      assert a[0].JString?;
      assert forall i :: 0 <= i < |a| - 1 ==> a[1..][i] == a[i + 1];
      assert JoinPieces(a[1..]).Ok?;
      assert (a + b)[0] == a[0];
      assert (a + b)[1..] == a[1..] + b;
      JoinPiecesAppend(a[1..], b);
      assert JoinPieces(a) == Ok(a[0].s + JoinPieces(a[1..]).value);
      assert JoinPieces(a + b) == Ok(a[0].s + JoinPieces(a[1..] + b).value);
      var x, y := JoinPieces(a[1..]).value, JoinPieces(b).value;
      assert a[0].s + (x + y) == (a[0].s + x) + y;
    }
  }

  lemma {:induction false} UsualStreamPieces(chunks: seq<Json>)
    requires forall i :: 0 <= i < |chunks| ==> UsualChunk(chunks[i])
    ensures Pieces(chunks).Ok? && JoinPieces(Pieces(chunks).value) == Ok(StreamText(chunks))
    decreases |chunks|
  {
    if chunks != [] {
      var init := chunks[..|chunks| - 1];
      var last := chunks[|chunks| - 1];
      UsualStreamPieces(init);
      UsualChunkPiece(last);
      var p := ChunkPiece(last).value;
      JoinPiecesAppend(Pieces(init).value, p);
    }
  }

  /** Streamed output is the in-order concatenation of the chunks' contents, stripped. */
  lemma StreamConcatenates(chunks: seq<Json>)
    requires forall i :: 0 <= i < |chunks| ==> UsualChunk(chunks[i])
    ensures CallOutcome(Ok(chunks)) == Ok(Strip(StreamText(chunks)))
  {
    UsualStreamPieces(chunks);
  }

  // ---------------------------------------------------------------- validation

  /** The first item that is not a dictionary with `rule`, `result` and `reason`. */
  function FirstInvalid(items: seq<Json>): (k: Option<nat>)
    ensures k.None? <==> forall i :: 0 <= i < |items| ==> HasVerdictKeys(items[i])
    ensures k.Some? ==> k.value < |items| && !HasVerdictKeys(items[k.value])
    ensures k.Some? ==> forall i :: 0 <= i < k.value ==> HasVerdictKeys(items[i])
    decreases |items|
  {
    if items == [] then None
    else if !HasVerdictKeys(items[0]) then Some(0)
    else match FirstInvalid(items[1..])
      case None =>
        assert forall i :: 1 <= i < |items| ==> items[1..][i - 1] == items[i];
        None
      case Some(k) =>
        assert forall i :: 1 <= i < k + 1 ==> items[1..][i - 1] == items[i];
        Some(k + 1)
  }

  /** The structural check: `parsed` itself, or the `ValueError` message; `show` is `str` of an item. */
  function Validation(parsed: Json, show: Json -> string): (r: Result<Json, string>)
    ensures r.Ok? <==> parsed.JList? && forall i :: 0 <= i < |parsed.items| ==> HasVerdictKeys(parsed.items[i])
    ensures r.Ok? ==> r.value == parsed
  {
    if !parsed.JList? then Err(NotAList)
    else match FirstInvalid(parsed.items)
      case None => Ok(parsed)
      case Some(k) => Err(InvalidItemPrefix + show(parsed.items[k]))
  }

  /** The validation loop over the parsed items. */
  method ValidateParsed(parsed: Json, show: Json -> string) returns (r: Result<Json, string>)
    ensures r == Validation(parsed, show)
  {
    if !parsed.JList? {
      return Err(NotAList);
    }
    var items := parsed.items;
    var i := 0;
    while i < |items|
      invariant 0 <= i <= |items|
      invariant forall j :: 0 <= j < i ==> HasVerdictKeys(items[j])
    {
      var item := items[i];
      if !item.JDict? || !("rule" in item.fields && "result" in item.fields && "reason" in item.fields) {
        return Err(InvalidItemPrefix + show(item));
      }
      i := i + 1;
    }
    return Ok(parsed);
  }

  /** What the `try` around parsing and validation returns for an output. */
  function Checked(rules: seq<string>, output: string, parse: Parser, show: Json -> string): Json {
    match parse(output)
    case Err(e) => ErrorVerdicts(rules, ParseFailurePrefix + e)
    case Ok(parsed) =>
      match Validation(parsed, show)
      case Ok(v) => v
      case Err(e) => ErrorVerdicts(rules, ParseFailurePrefix + e)
  }

  /**
   * Accepted output is a list of verdict-shaped dictionaries, returned as
   * parsed and of any length (an empty list passes); anything else fails
   * closed with one `Error` per rule.
   */
  lemma CheckedFailClosed(rules: seq<string>, output: string, parse: Parser, show: Json -> string)
    ensures var v := Checked(rules, output, parse, show);
      || (parse(output) == Ok(v) && v.JList? && forall i :: 0 <= i < |v.items| ==> HasVerdictKeys(v.items[i]))
      || FailClosed(v, rules)
  {
    match parse(output)
    case Err(e) => ErrorVerdictsFailClosed(rules, ParseFailurePrefix + e);
    case Ok(parsed) =>
      match Validation(parsed, show)
      case Ok(_) =>
      case Err(e) => ErrorVerdictsFailClosed(rules, ParseFailurePrefix + e);
  }

  /**
   * `evaluate_rules_with_local_llm`: `first` and `second` are the streams
   * of the first call and of the retry. A failing call raises out of the
   * function, since it happens before the `try`.
   */
  method EvaluateRulesWithLocalLlm(t: Template, transcript: string, rules: seq<string>,
                                   first: Result<seq<Json>, string>, second: Result<seq<Json>, string>,
                                   parse: Parser, show: Json -> string)
    returns (prompt: string, calls: nat, r: Result<Json, string>)
    requires IsAuditTemplate(t)
    ensures prompt == BuildGptPrompt(t, transcript, rules)
    ensures calls == (if CallOutcome(first) == Ok([]) then 2 else 1)
    ensures CallOutcome(first).Err? ==> r == Err(CallOutcome(first).error)
    ensures CallOutcome(first).Ok? && CallOutcome(first).value != [] ==> r == Ok(Checked(rules, CallOutcome(first).value, parse, show))
    ensures CallOutcome(first) == Ok([]) ==>
      r == (match CallOutcome(second)
            case Err(e) => Err(e)
            case Ok(out) => Ok(Checked(rules, out, parse, show)))
  {
    prompt := BuildGptPrompt(t, transcript, rules);
    var output := CallLlm(first);
    calls := 1;
    if output.Err? {
      return prompt, calls, Err(output.error);
    }
    if output.value == [] {
      output := CallLlm(second);
      calls := 2;
      if output.Err? {
        return prompt, calls, Err(output.error);
      }
    }
    var parsed := parse(output.value);
    if parsed.Err? {
      return prompt, calls, Ok(ErrorVerdicts(rules, ParseFailurePrefix + parsed.error));
    }
    var valid := ValidateParsed(parsed.value, show);
    if valid.Err? {
      return prompt, calls, Ok(ErrorVerdicts(rules, ParseFailurePrefix + valid.error));
    }
    r := Ok(valid.value);
  }
}
