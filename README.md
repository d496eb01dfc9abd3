# audio-auditing, modelled in Dafny

This project models the core of the audio-auditing service, a FastAPI application. The service takes a call recording or a ready-made transcription together with audit parameters, each a list of rules. It then:

- downloads the audio and transcodes it to 16 kHz mono PCM WAV with ffmpeg when needed;
- transcribes it with a shared Whisper model;
- asks an LLM (OpenAI over HTTP or the SDK, or a local llama.cpp model) whether each rule was followed;
- renders the transcript as one-line HTML blocks;
- posts or returns the result.

The model follows the source files. Each core file has its own module, except `services/transcript_service.py`, which is split across five modules. `Prompts` and `Verdicts` hold what the three LLM services share. `Wrappers`, `Text`, `JsonValues` and `Segments` are helpers that no single file owns. The parts covered are:

- **Request and response bodies.** Module `AuditModels`, from `dtos/audit_models.py`. Covers reading the bodies from JSON and writing them back.
- **Transcript processing.** Modules `Timestamps`, `TimestampPattern`, `Html`, `Blocks` and `TranscriptService`, from `services/transcript_service.py`. Covers:
  - `seconds_to_timestamp`;
  - the timestamp regular expressions;
  - `html.escape`;
  - the line-collapsing of HTML blocks;
  - the four formatters;
  - the cue-based speaker classifier.
- **The sticky-speaker formatter.** Module `TranscriptUtils`, from `services/transcript_utils.py`.
- **Diarization matching.** Module `SpeakerAttribution`, from `pyannote-diarization/speaker_attributed_transcript.py`.
- **The audio-format decision.** Module `AudioFormat`, from `services/audio_format_handler.py`. Covers the ffprobe check, the ffmpeg command, the output path and the extension.
- **The Whisper model pool and transcription.** Module `WhisperService`, from `services/whisper_service.py`.
- **LLM result handling.** Modules `Prompts`, `Verdicts`, `OpenAiService`, `LlmService` and `GptService`. Covers:
  - prompt building;
  - the HTTP and SDK evaluators;
  - streamed output accumulation;
  - the retry-once rule;
  - output validation;
  - the fail-closed `Error` verdicts;
  - the field-extraction helpers.
- **The three request handlers.** Module `Extract`, from `routes/extract.py`. Covers the control flow, payload shapes, temp-file cleanup and single-rule response defaulting.

Functions that only compute are Dafny functions. The step-by-step parts are methods with loops and invariants, proved against those functions:

- the formatter loops;
- the stream loop;
- the validation loop;
- the sequential evaluation of parameters;
- the `finally` cleanup loop.

The model pool and the temporary files are classes whose methods state their whole new state.

These effects are parameters of the model:

- network calls (downloads, webhooks, OpenAI);
- subprocesses (ffprobe, ffmpeg);
- the Whisper and llama.cpp models;
- `json.loads`;
- temp-file naming.

Each parameter is either the outcome itself, such as `ProbeResult`, `RunResult`, `Fetch`, `SdkOutcome` or `HttpResponse`, or a function over its inputs, such as the `Parser`, the `Evaluator` and the transcriber.

`build_gpt_prompt` in `services/gpt_service.py:34-67` has the same layout as the one in `services/llm_service.py`, which `LlmService.BuildGptPrompt` models.

Some points about what the code does, which the model follows:

- `/analyze-audio` sends no failure webhook. The handler's comment at `routes/extract.py:73` says "Send failure webhook", but the `except` branch only builds an error payload and raises a 500 with it. The same holds for the testing handler at `routes/extract.py:144`.
- No confidence score is clamped to a range.
- A supplied transcription is not whitespace-collapsed; it only has its timestamps removed.
- An empty rule list is not rejected.
- The testing handler does not check a webhook URL, because that check is commented out (`routes/extract.py:99-100`).

## Model

| member | source | states |
|---|---|---|
| AuditModels.RuleItemFrom | dtos/audit_models.py:4-6 | a rule item is accepted only with a string `rule`, which it keeps; an absent `ruleId` is None |
| AuditModels.RuleItemRoundTrip | dtos/audit_models.py:4-6 | reading a serialised rule item gives the item back |
| AuditModels.RuleListFrom | dtos/audit_models.py:8 | only a list is accepted; a list of strings becomes plain rules element by element; rule items are tried only when some element is not a string, and then every element must read as a rule item; otherwise the error names `ruleList` |
| AuditModels.RuleListRoundTrip | dtos/audit_models.py:8 | a rule list reads back as itself, except that an empty list of items reads back as an empty list of strings, because the string alternative is tried first |
| AuditModels.ParameterRuleFrom | dtos/audit_models.py:9-12 | a parameter needs `id` and `ruleList`; an absent `name` is None |
| AuditModels.ParameterRuleRoundTrip | dtos/audit_models.py:9-12 | a parameter whose rule list is distinguishable reads back as itself |
| AuditModels.ParametersRoundTrip | dtos/audit_models.py:20 | a list of parameters reads back element by element |
| AuditModels.AuditRequestFrom | dtos/audit_models.py:14-20 | a request needs `audioUrl` and `parameter`; each absent optional field is None |
| AuditModels.AuditRequestRoundTrip | dtos/audit_models.py:14-20 | reading a serialised audit request gives it back |
| AuditModels.SingleRuleRequestFrom | dtos/audit_models.py:23-26 | a single-rule request is accepted exactly when `ruleId` (int or str), `rule` and `transcript` (str) are all present with those types |
| AuditModels.SingleRuleRequestRoundTrip | dtos/audit_models.py:23-26 | reading a serialised single-rule request gives it back |
| AuditModels.SingleRuleResponseFrom | dtos/audit_models.py:28-33 | an absent `confidenceScore` becomes 0.0 |
| AuditModels.SingleRuleResponseRoundTrip | dtos/audit_models.py:28-33 | reading a serialised single-rule response gives it back |
| Timestamps.Trunc | services/transcript_service.py:10 | `int()` truncates toward zero: the result is within one of the input, on the zero side |
| Timestamps.ClockRoundTrip | services/transcript_service.py:8-10 | within one day the `H:MM:SS` rendering reads back to the same number of seconds |
| Timestamps.TimedeltaRoundTrip | services/transcript_service.py:8-10 | for every whole number of seconds, including whole days and negative values, the rendered timedelta reads back to that number; Python renders only day counts up to 999999999 in magnitude (see Left out) |
| Timestamps.TimestampIsTight | services/transcript_service.py:8-10 | a timestamp has no line break and no whitespace at either end |
| TimestampPattern.TimestampEndsSound | services/transcript_service.py:25 | each candidate end found at a position closes a `(\d{1,2}:)?\d{1,2}:\d{2}` match, longest first |
| TimestampPattern.TimestampEndsComplete | services/transcript_service.py:25 | every timestamp that starts at a position is among the candidates found there |
| TimestampPattern.LeadingTimestampFound | services/transcript_service.py:25 | a line has a leading match exactly when a timestamp follows its leading whitespace |
| TimestampPattern.LeadingTimestampLongest | services/transcript_service.py:25 | the greedy match takes the longest leading timestamp |
| TimestampPattern.LeadingTimestampRemoved | services/transcript_service.py:25 | the substitution removes the leading whitespace, the longest timestamp and the whitespace after it, and keeps the rest of the line |
| TimestampPattern.FindAll | services/transcript_service.py:76 | `findall` matches are well formed, start at or after the scan position and do not overlap |
| TimestampPattern.FindAllComplete | services/transcript_service.py:76 | `findall` misses nothing: each match is the match at its own start, and no position before the first match, between two matches or after the last starts a match |
| TimestampPattern.MatchAtSound | services/transcript_service.py:76 | a match tried at a position starts there and is well formed: a timestamp, whitespace, then a non-empty run of non-digits that ends at a digit or at the end |
| TimestampPattern.FindTimestampedTexts | services/transcript_service.py:76 | every pair is a timestamp with a non-empty run of non-digit text |
| TimestampPattern.FindTimestampedTextsRoundTrip | services/transcript_service.py:76 | rendering readable `(timestamp, text)` pairs as `"ts text"` and scanning them gives the pairs back |
| Html.UnescapeEscape | services/transcript_service.py:52 | `html.escape` loses nothing: unescaping gives the text back |
| Html.EscapeIsWellEscaped | services/transcript_service.py:52 | escaped text contains no `<`, `>`, `"` or `'`, and every `&` in it starts one of the five entities `html.escape` writes |
| Html.CollapseBySplit | services/transcript_service.py:60 | collapsing is the concatenation of the stripped lines |
| Html.CollapseHasNoNewline | services/transcript_service.py:60 | a collapsed block has no line break |
| Blocks.TimeTextCollapse | services/transcript_service.py:54-60 | collapsing the timestamp and text template gives the one-line div with the text itself collapsed |
| Blocks.SpeakerCollapse | services/transcript_service.py:141-148 | collapsing the speaker template gives the one-line div with class, timestamp, speaker and collapsed text |
| Blocks.ReadTimeTextsRoundTrip | services/transcript_service.py:63 | a concatenation of timestamp and text blocks reads back to its rows when no field contains `<` |
| Blocks.ReadSpeakersRoundTrip | services/transcript_service.py:151 | a concatenation of speaker blocks reads back to its rows when each row is delimited |
| TranscriptService.KeptLinesSound | services/transcript_service.py:22-28 | every kept line is non-blank and is the cleaned form of an input line |
| TranscriptService.KeptLinesComplete | services/transcript_service.py:22-28 | every input line whose cleaned form is non-blank is kept |
| TranscriptService.RemoveTimestampsFromText | services/transcript_service.py:12-28 | the loop's output is the cleaned non-blank lines in input order joined with `\n` |
| TranscriptService.StampedLineCleaned | services/transcript_service.py:25 | a line `"<timestamp> <text>"` is cleaned down to its text |
| TranscriptService.RemoveTimestampsFromStampedText | services/transcript_service.py:12-28 | a transcript of stamped lines loses exactly its timestamps |
| TranscriptService.SmartFormatTranscript | services/transcript_service.py:30-36 | a string goes to the regex formatter, a segment list to the segment formatter, anything else raises "Unsupported transcript format" |
| TranscriptService.FormatTranscriptWithoutSpeaker | services/transcript_service.py:39-63 | the page is the concatenation of one block per segment, in order |
| TranscriptService.SegmentBlocks | services/transcript_service.py:49-61 | one block per segment, block i being segment i's block |
| TranscriptService.SegmentBlockShape | services/transcript_service.py:49-61 | a segment's block is the one-line div holding its timestamp and its stripped, escaped text |
| TranscriptService.ShownTextFacts | services/transcript_service.py:50-52 | the shown text has no `<` or `"`, and for one-line text unescapes back to the stripped text |
| TranscriptService.WithoutSpeakerReadsBack | services/transcript_service.py:39-63 | the page reads back to one (timestamp, shown text) row per segment |
| Timestamps.SecondsToTimestamp | services/transcript_service.py:8-10 | the timestamp reads back to the number of seconds truncated toward zero |
| TranscriptService.FormatTranscriptWithoutSpeakerNew | services/transcript_service.py:68-89 | the page is one block per regex match, in order |
| TranscriptService.WithoutSpeakerNewReadsBack | services/transcript_service.py:68-89 | the page reads back to the matched timestamps with their shown texts |
| TranscriptService.WithoutSpeakerNewRoundTrip | services/transcript_service.py:68-89 | for a rendered transcript of readable pairs, the page reads back to exactly those pairs |
| TranscriptService.AnyCue | services/transcript_service.py:123 | `any(phrase in lower ...)` holds exactly when some cue occurs in the text |
| TranscriptService.SpeakerFor | services/transcript_service.py:122-128 | the speaker is Customer exactly when a customer cue occurs, and Agent otherwise |
| TranscriptService.ClassName | services/transcript_service.py:131-135 | the class is `customerClass` exactly for Customer, otherwise `agentClass` |
| TranscriptService.GreetingIsCustomer | services/transcript_service.py:100-124 | text with "thank you for calling" is classed Customer, since it contains the customer cue "thank you" |
| TranscriptService.CanIHaveIsCustomer | services/transcript_service.py:100-124 | text with "can i have" is classed Customer, since it contains the customer cue "can i" |
| TranscriptService.FormatTranscriptWithSpeakers | services/transcript_service.py:92-151 | the page is one speaker block per segment, in order |
| TranscriptService.SpeakerBlocks | services/transcript_service.py:117-149 | one speaker block per segment, block i being segment i's block |
| TranscriptService.SpeakerBlockShape | services/transcript_service.py:117-149 | each block is the delimited row of class, timestamp, speaker and escaped text |
| TranscriptService.WithSpeakersReadsBack | services/transcript_service.py:92-151 | the speaker page reads back to one row per segment |
| TranscriptService.FormattedHasNoNewline | services/transcript_service.py:39-151 | every formatter's page is a single line |
| TranscriptUtils.CueOf | services/transcript_utils.py:38-41 | a customer cue gives a User cue; otherwise an agent cue gives an Assistant cue, so customer cues win |
| TranscriptUtils.NextSpeaker | services/transcript_utils.py:37-42 | without a cue the previous label carries over; after any cue the label is never "Agent" |
| TranscriptUtils.NoCueCarries | services/transcript_utils.py:37-42 | segments without a cue keep the previous speaker |
| TranscriptUtils.NeverBackToAgent | services/transcript_utils.py:29-42 | once the speaker has left the initial "Agent", it never returns to it |
| TranscriptUtils.AgentUntilFirstCue | services/transcript_utils.py:29-42 | a segment is labelled "Agent" exactly when no segment up to it had a cue |
| TranscriptUtils.LatestCueDecides | services/transcript_utils.py:37-42 | a segment's speaker is decided by the latest cue at or before it |
| TranscriptUtils.ClassName | services/transcript_utils.py:45 | the class is `assistantClass` exactly for Assistant, otherwise `userClass` |
| TranscriptUtils.DetectSpeaker | services/transcript_utils.py:37-42 | one step of the sticky speaker state machine |
| TranscriptUtils.FormatSegment | services/transcript_utils.py:32-56 | one segment's block and the speaker carried to the next segment |
| TranscriptUtils.FormatTranscriptWithSpeakers | services/transcript_utils.py:8-58 | the loop's page is the blocks computed with the sticky speakers, in order |
| TranscriptUtils.UtilsBlocksLabels | services/transcript_utils.py:31-56 | block k carries the sticky speaker of segment k |
| TranscriptUtils.UtilsReadsBack | services/transcript_utils.py:48-58 | when no text contains `<`, the page reads back to one row per segment |
| TranscriptUtils.UnescapedTextIsMarkup | services/transcript_utils.py:52 | the text is inserted unescaped, so a `<` in it stops the page from reading back to its rows |
| TranscriptUtils.UtilsHasNoNewline | services/transcript_utils.py:55-58 | the page is a single line |
| SpeakerAttribution.FirstCovering | pyannote-diarization/speaker_attributed_transcript.py:19-22 | the first turn with `start <= t < end` is found, and none before it covers `t` |
| SpeakerAttribution.SpeakerAt | pyannote-diarization/speaker_attributed_transcript.py:16-22 | the label of the first turn, in list order, whose `[start, end)` holds the time; "Unknown" when no turn does |
| SpeakerAttribution.FindSpeaker | pyannote-diarization/speaker_attributed_transcript.py:16-22 | the loop picks the first covering turn's speaker, or "Unknown" |
| SpeakerAttribution.HalfOpenTurns | pyannote-diarization/speaker_attributed_transcript.py:20 | turns are half-open: a segment starting where one turn ends and the next begins goes to the next turn |
| SpeakerAttribution.ClassName | pyannote-diarization/speaker_attributed_transcript.py:24 | the class is `agentClass` exactly for SPEAKER_00, otherwise `customerClass` |
| SpeakerAttribution.AttributeSegment | pyannote-diarization/speaker_attributed_transcript.py:15-35 | one segment's block with its attributed speaker |
| SpeakerAttribution.MatchDiarizationWithTranscript | pyannote-diarization/speaker_attributed_transcript.py:8-37 | the page is one attributed block per segment, in order |
| SpeakerAttribution.AttributedBlocks | pyannote-diarization/speaker_attributed_transcript.py:24-35 | one attributed block per segment, block i being segment i's block |
| SpeakerAttribution.AttributedBlockShape | pyannote-diarization/speaker_attributed_transcript.py:24-35 | each block is the delimited row of class, timestamp, speaker and escaped text |
| SpeakerAttribution.AttributedReadsBack | pyannote-diarization/speaker_attributed_transcript.py:8-37 | with plain speaker labels the page reads back to one row per segment |
| SpeakerAttribution.AttributedHasNoNewline | pyannote-diarization/speaker_attributed_transcript.py:35-37 | the page is a single line |
| AudioFormat.IsWhisperCompatibleWav | services/audio_format_handler.py:40-60 | compatible exactly when ffprobe succeeds and its stripped output is `pcm_s16le`, `16000`, `1` on three lines |
| AudioFormat.CompatibleLines | services/audio_format_handler.py:57-58 | the accepted probe output splits into exactly the codec, rate and channel values |
| AudioFormat.TranscodeToWhisperWav | services/audio_format_handler.py:14-38 | ffprobe runs only for a `.wav` name; the input is reused only when it is a compatible wav; otherwise ffmpeg is run with exactly the conversion command from the input to the fresh `<temp dir>/<uuid>.wav` path, which is returned on success; an ffmpeg failure raises with its stderr |
| AudioFormat.OutputIsWav | services/audio_format_handler.py:22 | the output path always ends in `.wav` |
| AudioFormat.OutputExtension | services/audio_format_handler.py:22 | `splitext` of the output path is `.wav` for a uuid name |
| AudioFormat.CommandMatchesCheck | services/audio_format_handler.py:24-32 | the codec, rate and channel arguments given to ffmpeg are exactly what the compatibility check accepts |
| AudioFormat.Extension | services/audio_format_handler.py:82 | `splitext(p)[-1]` is a suffix of `p`: empty, or a dot followed by no dot and no slash |
| AudioFormat.DetectCodec | services/audio_format_handler.py:63-85 | ffprobe success gives the lower-cased extension and the stripped ffprobe output as the codec; failure raises "FFprobe failed: " + stderr |
| WhisperService.WhisperModelPool.constructor | services/whisper_service.py:14-16 | the pool starts empty |
| WhisperService.WhisperModelPool.GetModel | services/whisper_service.py:18-24 | a held model is returned without loading; otherwise the load's outcome is kept and returned |
| WhisperService.WhisperModelPool.ClearModel | services/whisper_service.py:26-36 | the pool ends empty, and a held model counts as unloaded |
| WhisperService.SegmentOf | services/whisper_service.py:52 | a segment converts exactly when it is a dictionary with a `start` number and a string `text`; the text is stripped and the start kept |
| WhisperService.SegmentsOf | services/whisper_service.py:50-54 | a non-dictionary result fails; a missing `segments` key gives `[]`; a non-empty result is the item-by-item conversion of a `segments` list |
| WhisperService.SegmentsFrom | services/whisper_service.py:51-54 | the segment list converts item by item, and fails if any item does |
| WhisperService.Transcribed | services/whisper_service.py:46-57 | a non-empty result is the converted `segments` of a successful transcription, and a successful transcription whose `segments` items all convert gives exactly those segments |
| WhisperService.TranscribedTextsStripped | services/whisper_service.py:52 | every returned text is stripped |
| WhisperService.FailureLooksEmpty | services/whisper_service.py:50-57 | a failure and a result without segments both give `[]` |
| WhisperService.TranscribeAudioWhisper | services/whisper_service.py:39-57 | transcribes with the pool's model, loading it if needed, and returns `[]` when no model is available |
| Verdicts.ErrorVerdicts | services/llm_service.py:103-107 | one `Error` verdict per rule, in rule order, with the given reason |
| Verdicts.ErrorVerdictsAnswerRules | services/llm_service.py:103-107 | the error verdicts name exactly the given rules, each with result "Error" |
| Verdicts.ErrorVerdictsFailClosed | services/openai_service.py:75 | error verdicts fail closed for the given rules |
| Prompts.NumberedLines | services/llm_service.py:6 | rule i is rendered as `"<i+1>. <rule>"` |
| Prompts.Prompt | services/llm_service.py:38 | the returned prompt has no whitespace at either end |
| Prompts.PromptLayout | services/llm_service.py:8-38 | the stripped prompt is the template's opening, the numbered rules, the transcript between triple quotes, and the closing |
| Prompts.PromptQuotesTranscript | services/llm_service.py:26 | the prompt starts with the engine line and quotes the transcript verbatim |
| Prompts.RuleBlockRoundTrip | services/llm_service.py:6 | when no rule spans lines, the numbered block reads back to the rules |
| Prompts.CleanRules | services/openai_service.py:10 | each rule has its line breaks turned into spaces, so no rule spans lines |
| Prompts.CleanKeepsOneLineRules | services/openai_service.py:10 | cleaning leaves one-line rules unchanged |
| OpenAiService.BuildGptPrompt | services/openai_service.py:8-43 | the prompt lists the cleaned rules and quotes the transcript |
| OpenAiService.PromptListsEveryRule | services/openai_service.py:10-31 | the cleaned rules can be read back from the prompt, and the transcript is quoted verbatim |
| OpenAiService.RequestHeaders | services/openai_service.py:63-69 | JSON content type and `Bearer <key>`, which renders a missing key as `None`; the project header is sent only for a non-empty project id |
| OpenAiService.ResponseVerdicts | services/openai_service.py:73-75 | a non-200 status gives one `Error` verdict per rule with the response text |
| OpenAiService.ResponseVerdictsFailClosed | services/openai_service.py:73-81 | a 200 response gives its parsed content; otherwise every rule fails closed, with a "Parsing error: " reason after a 200 |
| OpenAiService.EvaluateRulesWithGptUsingRequests | services/openai_service.py:51-81 | posts the prompt to the chat-completions URL with those headers; a transport failure raises, a response gives its verdicts |
| OpenAiService.Unfenced | services/openai_service.py:174-177 | the stripped and de-backticked content has no whitespace at either end |
| OpenAiService.TaggedFenceKeepsTag | services/openai_service.py:177 | a ```` ```json ```` fence loses its backticks but keeps the `json` tag in front of the body |
| OpenAiService.EvaluateRulesWithGpt | services/openai_service.py:162-188 | the SDK is called on the rule prompt for the transcript; a client error or a None content fails closed; content that parses is returned as parsed |
| OpenAiService.SdkFailClosed | services/openai_service.py:162-188 | the SDK evaluation returns the parsed content, or `None` after invalid JSON when the logger call returns, or error verdicts for every rule |
| LlmService.BuildGptPrompt | services/llm_service.py:5-38 | the rules are numbered as given, line breaks included, and the transcript is quoted |
| LlmService.PromptListsOneLineRules | services/llm_service.py:6 | one-line rules can be read back from the prompt |
| LlmService.JoinPieces | services/llm_service.py:73 | `''.join` succeeds exactly when every piece is a string |
| LlmService.UsualChunkPiece | services/llm_service.py:67-71 | a chunk whose first choice has a delta adds that delta's content; a chunk without `choices`, `delta` or `content` adds nothing |
| LlmService.CallOutcome | services/llm_service.py:54-75 | a call yields stripped text or a "LLM call failed: " error |
| LlmService.CallLlm | services/llm_service.py:54-75 | the stream loop returns the call's outcome |
| LlmService.PiecesErrStays | services/llm_service.py:67-73 | the first chunk that raises decides the error, whatever follows it |
| LlmService.StreamConcatenates | services/llm_service.py:66-73 | for well-shaped chunks the output is their contents concatenated in order, then stripped |
| LlmService.FirstInvalid | services/llm_service.py:95-97 | finds the first item lacking `rule`, `result` or `reason`; none means every item has all three |
| LlmService.Validation | services/llm_service.py:93-99 | the parsed value is accepted exactly when it is a list of dictionaries with the three keys, and it is returned unchanged |
| LlmService.ValidateParsed | services/llm_service.py:92-99 | the validation loop computes the validation outcome |
| LlmService.CheckedFailClosed | services/llm_service.py:85-107 | the result is either a verdict-shaped list exactly as parsed, of any length, or one `Error` per rule |
| LlmService.EvaluateRulesWithLocalLlm | services/llm_service.py:51-107 | the LLM is called a second time exactly when the first output is empty; a call failure raises; otherwise the final output is parsed and checked |
| GptService.EvaluateRulesWithGptAsWritten | services/gpt_service.py:73-86 | as written, whatever the SDK answers to the rule prompt, the result is error verdicts for all rules |
| GptService.EvaluateRulesWithGpt | services/gpt_service.py:73-86 | with the content read by attribute, the SDK's parsed answer to the rule prompt is returned and a client error gives error verdicts |
| GptService.GptAnswersOrFailsClosed | services/gpt_service.py:76-86 | the corrected evaluation gives the parsed answer or fails closed |
| GptService.AsWrittenDropsAnswer | services/gpt_service.py:83 | for the model answer `[]`, the code as written reports an `Error` verdict instead |
| GptService.TranscriptOfPrompt | services/gpt_service.py:90 | recovering the transcript from a prompt is sound |
| GptService.ExtractionPromptRoundTrip | services/gpt_service.py:90 | the extraction prompt is the template, the transcript unchanged, then "\n\nReturn only valid JSON." |
| GptService.ExtractUsingOpenAi | services/gpt_service.py:89-103 | the SDK is called on the extraction prompt built from the template and the transcript; a client error or None content raises; otherwise the stripped content is returned, as parsed or as `raw_output` |
| GptService.OpenAiExtractionKeepsAnswer | services/gpt_service.py:99-103 | invalid JSON is wrapped as `{"raw_output": stripped content}` |
| GptService.ExtractUsingLocal | services/gpt_service.py:118-130 | a failed call gives `raw_output` "" together with the error |
| GptService.LocalExtractionReports | services/gpt_service.py:118-130 | the result is the parsed output, or `{raw_output, error}` whose raw output is non-empty only if the model's stripped content was obtained |
| Extract.TempFiles.Create | routes/extract.py:35 | creating a temp file adds its path |
| Extract.TempFiles.RemoveIfExists | routes/extract.py:84-88 | a truthy existing path is removed unless removal fails; nothing else changes |
| Extract.RemoveTempFiles | routes/extract.py:82-88 | after the `finally` loop, exactly the tracked removable paths are gone |
| Extract.TempAudioPath | routes/extract.py:34-37 | the saved audio's path ends with the URL's extension |
| Extract.AudioStage | routes/extract.py:28-43 | segments exist exactly when a transcoded path was assigned, and every assigned path was created |
| Extract.FetchAndTranscribe | routes/extract.py:28-43 | download, save, transcode and transcribe in order, creating the stage's files and loading the model only when transcription is reached |
| Extract.AuditOutcome | routes/extract.py:27-60 | the payload exists exactly when the audio stage and every evaluation succeed; otherwise the error is the audio stage's or one parameter's evaluation error; the payload has status "completed" and the request's `sampleId` |
| Extract.Gathered | routes/extract.py:46-49 | the evaluations succeed exactly when every parameter's does: one result per parameter in order, otherwise the first failure |
| Extract.GatherEvaluations | routes/extract.py:46-49 | evaluating parameter by parameter gives the gathered outcome |
| Extract.AuditCall | routes/extract.py:18-88 | a missing webhook URL gives a 500 before any work; a pipeline failure gives a 500 with `{sampleId, status: "error", error}`; success posts the payload and returns "Audit completed and webhook sent"; the model is loaded only when transcription is reached; cleanup always removes the tracked paths |
| Extract.DownloadFailureIs500 | routes/extract.py:30-31 | a non-200 download is re-raised as a 500 whose error is "400: Failed to download audio", and no file is created |
| Extract.CopyFailureLeaksTempFile | routes/extract.py:35-37 | when the copy fails, `audio_path` is never set and the temp file stays on disk |
| Extract.TranscodedRunCleansUp | routes/extract.py:82-88 | after a saved download and a successful ffmpeg run, the handler's final state holds neither the downloaded file nor `<temp dir>/<uuid>.wav` unless its removal fails, and every other file is as before |
| Extract.AuditPayloadShape | routes/extract.py:55-60 | a success payload has status "completed", the formatted transcript, and one evaluation per parameter in order |
| Extract.AuditCallTesting | routes/extract.py:93-161 | a non-blank transcription skips download and transcription and leaves the files and the model alone; otherwise the audio stage runs and the model is loaded only when transcription is reached; failures give a 500; cleanup always runs |
| Extract.TestingTranscript | routes/extract.py:103-122 | a non-blank transcription is used as text and skips the audio; otherwise the evaluators see the audio stage's segments, or its error |
| Extract.TranscriptField | routes/extract.py:135 | the payload's transcript is None exactly for a truthy transcription; segments always format; only a non-empty string that reaches the formatter raises `TypeError` |
| Extract.TestingResult | routes/extract.py:124-152 | a response exactly when the transcript, every evaluation and the transcript field succeed, with status "completed" and the gathered evaluations; every failure is a 500 with the error payload |
| Extract.TestingTranscriptOmitted | routes/extract.py:131-150 | the payload's transcript is None exactly when a transcription was supplied, and the error payload carries no error text |
| Extract.AnalyzeSingleRule | routes/extract.py:164-193 | a response echoes the request's id and rule and is the response model read from the first result's fields; an empty or non-list result, or any other failure, gives a 500 "Error processing rule: ..." |
| Extract.ResponseFieldsRead | routes/extract.py:184-190 | the response built from a first result is valid exactly when its present fields have the right types, and then carries each present field's value and the default for each absent one |
| Extract.SingleRuleFieldsOrDefaults | routes/extract.py:164-193 | whatever else the result list holds, a first result with well-typed fields is answered with its own `result`, `reason` and `confidenceScore`, each defaulting when absent; an ill-typed one is a 500 |
| Extract.SingleRuleDefaults | routes/extract.py:184-190 | a first result without `result`, `reason` and `confidenceScore`, with any other keys and list items, gives "Error", "Could not evaluate" and 0.0 |
| Extract.SingleRuleListShape | routes/extract.py:168-171 | the evaluator gets one rule on one line, and its id text reads back to the request's id |

## Findings

| source | as written | input that shows it | evidently intended | confidence | as-written member | corrected member |
|---|---|---|---|---|---|---|
| services/gpt_service.py:83 | `response['choices']` indexes the SDK's `ChatCompletion` object, which is not subscriptable. The `TypeError` is caught at lines 85-86, so every rule is reported as `Error` | an SDK that answers the rule prompt with content `[]`, for the rules `["r"]` and any transcript | read `response.choices[0].message.content`, as `services/openai_service.py:174` does, and return the parsed answer | high; not executed | GptService.EvaluateRulesWithGptAsWritten | GptService.EvaluateRulesWithGpt |

## Left out

- **I/O as inputs.** HTTP downloads, webhook POSTs, the OpenAI HTTP API and SDK, the ffprobe and ffmpeg subprocesses, the Whisper and llama.cpp models, and `json.loads` are inputs. Their outcomes are parameters, and the model covers only what the code does with them.
- **Side effects.** Printing, logging, `traceback`, `gc.collect`, `torch.cuda.empty_cache` and the pool's `threading.Lock` are not modelled. They change no result; the lock only serialises access.
- **Text is ASCII.**
  - `str.isspace`, `str.lower` and `str.splitlines` are modelled on ASCII: whitespace is space, `\t` to `\r` and `\x1c` to `\x1f`; only `\n` breaks lines.
  - Non-ASCII cue phrases are matched as plain code points.
- **Exception messages.** Python's built-in exceptions are named by their class: `KeyError`, `IndexError`, `TypeError`, `AttributeError`, and pydantic's `ValidationError`. The texts CPython would print are not modelled. The prefixes the code adds, such as "LLM call failed: " and "Error processing rule: ", are modelled exactly.
- **Prompt prose.** The fixed prose of the prompts is an abstract `Template` that is known only to start with the engine line and to quote the transcript. The extraction template is a parameter. The model proves layout facts, not the exact wording.
- **Pydantic.**
  - Lax coercion between types is not modelled: an int is accepted for a float, nothing else is converted.
  - Validation reports only the first offending field.
- Timestamps.SecondsToTimestamp: Python's `timedelta` raises `OverflowError` when the day count exceeds 999999999 in magnitude (for example for 1e14 seconds); the model renders a string for every value. Its round trip holds for all inputs, but only seconds in `[-86400*999999999, 86400*1000000000)` match Python.
- OpenAiService.EvaluateRulesWithGpt: the logging call on invalid JSON is an input (`loggerFailure`). Because the function then falls off its end, the model returns `None` when that call returns.
- **The removed ffmpeg output.** An ffmpeg run that fails after creating its output file leaves that file behind, and the model does not track it.
- **Temp-file creation.** A failure to create the temp file itself is folded into the download's copy failure.
- WhisperService.SegmentOf: a segment whose `start` is neither an int nor a float makes the whole transcription fail. Python would only fail on formatting it later.
- **Undefined imports.** `routes/extract.py:10,12` import `remove_timestamps_from_transcript`, `evaluate_param_with_rules` and the `*_with_confidence` evaluators, which the shown services do not define. They are uninterpreted parameters (`removeTimestamps`, `Evaluator`, the single-rule evaluator). As written, importing the router would fail.
- Extract.Gathered: `asyncio.gather` is modelled as a sequential map that reports the first failing parameter in list order. When several evaluations raise, gather reports the first to raise in time, which may be a different one.
- **Not modelled: `format_transcript_html_with_gpt_using_requests`.** Defined in `services/openai_service.py:85-153`. Its only call site is commented out (`services/transcript_service.py:152`), and its behaviour is an HTTP call plus prompt prose.
- **Not modelled: `pyannote-diarization/diarization_service.py` and `main.py`.** The first produces the speaker turns with a pretrained pipeline. The second only mounts the router.
- **Second `audit_call`.** The testing handler reuses the name `audit_call`. Routing is unaffected, since each function is registered when it is defined.
