/**
 * The request handlers of the audit API: `/analyze-audio`,
 * `/analyze-audio-testing` and `/analyze-single-rule`. Downloading,
 * transcoding, transcribing and evaluating are effects whose outcomes are
 * parameters; the temporary files the handlers create and remove are the
 * state of a `TempFiles` object.
 */
module Extract {
  import opened Wrappers
  import opened Text
  import opened JsonValues
  import opened Segments
  import opened AuditModels
  import opened AudioFormat
  import opened WhisperService
  import opened TranscriptService

  const WebhookMissing: string := "Webhook URL not configured."
  /** `str()` of the `HTTPException(400, "Failed to download audio")` raised inside the `try`. */
  const DownloadFailed: string := "400: Failed to download audio"
  const AuditDone: string := "Audit completed and webhook sent"
  const RuleFailurePrefix: string := "Error processing rule: "
  const InvalidAiResponse: string := "Invalid AI response"
  /** pydantic's validation exception, named by its class. */
  const ValidationError: string := "ValidationError"

  /** What a handler answers: a JSON body, or the `HTTPException` it raises. */
  datatype HandlerResult = Response(body: Json) | HttpError(status: int, detail: Json)

  // ---------------------------------------------------------------- temporary files

  /** The temporary files on disk; removing an `undeletable` one raises, which the handlers only log. */
  class TempFiles {
    var existing: set<string>
    const undeletable: set<string>

    constructor (existing: set<string>, undeletable: set<string>)
      ensures this.existing == existing && this.undeletable == undeletable
    {
      this.existing := existing;
      this.undeletable := undeletable;
    }

    method Create(path: string)
      modifies this
      ensures existing == old(existing) + {path}
    {
      existing := existing + {path};
    }

    /** `if path and os.path.exists(path): os.remove(path)`, with a failing removal logged. */
    method RemoveIfExists(path: Option<string>)
      modifies this
      ensures existing == old(existing) - (Tracked([path]) - undeletable)
    {
      assert Tracked([path]) == if path.Some? && path.value != [] then {path.value} else {} by {
        assert [path][0] == path;
      }
      if path.Some? && path.value != [] && path.value in existing && path.value !in undeletable {
        existing := existing - {path.value};
      }
    }
  }

  /** The paths of `[audio_path, transcoded_path]` that are truthy, i.e. assigned and non-empty. */
  function Tracked(paths: seq<Option<string>>): set<string> {
    set i | 0 <= i < |paths| && paths[i].Some? && paths[i].value != [] :: paths[i].value
  }

  /** The `finally` block: every tracked path that can be removed is gone, and nothing else changes. */
  method RemoveTempFiles(fs: TempFiles, paths: seq<Option<string>>)
    modifies fs
    ensures fs.existing == old(fs.existing) - (Tracked(paths) - fs.undeletable)
  {
    var i := 0;
    while i < |paths|
      invariant 0 <= i <= |paths|
      invariant fs.existing == old(fs.existing) - (Tracked(paths[..i]) - fs.undeletable)
    {
      fs.RemoveIfExists(paths[i]);
      assert Tracked(paths[..i + 1]) == Tracked(paths[..i]) + Tracked([paths[i]]) by {
        assert paths[..i + 1] == paths[..i] + [paths[i]];
      }
      i := i + 1;
    }
    assert paths[..|paths|] == paths;
  }

  // ---------------------------------------------------------------- the audio stage

  /** `requests.get(audioUrl, stream=True)`: the exception it raised, or the status and the copy into the temp file. */
  datatype Fetch =
    | FetchRaised(message: string)
    | Fetched(status: int, tmpStem: string, copyError: Option<string>)

  /** The effects `transcode_to_whisper_wav` depends on. */
  datatype TranscodeEffects = TranscodeEffects(probe: ProbeResult, tempDir: string, id: string, ffmpeg: RunResult)

  /** `NamedTemporaryFile(suffix=ext)` where `ext` is the URL's extension. */
  function TempAudioPath(stem: string, audioUrl: string): (p: string)
    ensures EndsWith(p, Extension(audioUrl))
  {
    var ext := Extension(audioUrl);
    assert (stem + ext)[|stem + ext| - |ext|..] == ext;
    stem + ext
  }

  /** The whisper model after `get_model()`: the loaded one is kept, otherwise the load's outcome. */
  function PoolAfter(model: Option<Model>, load: Result<Model, string>): Option<Model> {
    if model.Some? then model else if load.Ok? then Some(load.value) else None
  }

  /** `transcribe_audio_whisper(path)` with the pool holding `model`. */
  function Heard(model: Option<Model>, path: string, transcribe: (Model, string) -> Result<Json, string>): seq<Segment> {
    if model.Some? then Transcribed(transcribe(model.value, path)) else []
  }

  /** What steps 1-4 leave: the assigned paths, the files created, and the segments or the exception's message. */
  datatype AudioRun = AudioRun(audioPath: Option<string>, transcodedPath: Option<string>, created: set<string>,
                               segments: Result<seq<Segment>, string>)

  function AudioStage(audioUrl: string, fetch: Fetch, fx: TranscodeEffects, model: Option<Model>,
                      transcribe: (Model, string) -> Result<Json, string>): (run: AudioRun)
    ensures run.segments.Ok? <==> run.transcodedPath.Some?
    ensures run.audioPath.Some? ==> run.audioPath.value in run.created
    ensures run.transcodedPath.Some? ==> run.audioPath.Some? && run.transcodedPath.value in run.created
  {
    match fetch
    case FetchRaised(m) => AudioRun(None, None, {}, Err(m))
    case Fetched(status, stem, copyError) =>
      if status != 200 then AudioRun(None, None, {}, Err(DownloadFailed))
      else
        var tmp := TempAudioPath(stem, audioUrl);
        if copyError.Some? then AudioRun(None, None, {tmp}, Err(copyError.value))
        else
          var t := TranscodeToWhisperWav(tmp, fx.probe, fx.tempDir, fx.id, fx.ffmpeg);
          match t.result
          case Err(e) => AudioRun(Some(tmp), None, {tmp}, Err(e))
          case Ok(out) => AudioRun(Some(tmp), Some(out), {tmp, out}, Ok(Heard(model, out, transcribe)))
  }

  /** Download, save, transcode and transcribe, creating the files the stage leaves behind. */
  method FetchAndTranscribe(fs: TempFiles, pool: WhisperModelPool, audioUrl: string, fetch: Fetch,
                            fx: TranscodeEffects, load: Result<Model, string>,
                            transcribe: (Model, string) -> Result<Json, string>)
    returns (run: AudioRun)
    requires pool.Valid()
    modifies fs, pool
    ensures pool.Valid()
    ensures run == AudioStage(audioUrl, fetch, fx, PoolAfter(old(pool.model), load), transcribe)
    ensures fs.existing == old(fs.existing) + run.created
    ensures pool.model == if run.transcodedPath.Some? then PoolAfter(old(pool.model), load) else old(pool.model)
  {
    if fetch.FetchRaised? {
      return AudioRun(None, None, {}, Err(fetch.message));
    }
    if fetch.status != 200 {
      return AudioRun(None, None, {}, Err(DownloadFailed));
    }
    var tmp := TempAudioPath(fetch.tmpStem, audioUrl);
    fs.Create(tmp);
    if fetch.copyError.Some? {
      return AudioRun(None, None, {tmp}, Err(fetch.copyError.value));
    }
    var audioPath := tmp;
    var t := TranscodeToWhisperWav(audioPath, fx.probe, fx.tempDir, fx.id, fx.ffmpeg);
    if t.result.Err? {
      return AudioRun(Some(audioPath), None, {tmp}, Err(t.result.error));
    }
    var transcodedPath := t.result.value;
    if t.command.Some? {
      fs.Create(transcodedPath);
    }
    var segments := TranscribeAudioWhisper(pool, transcodedPath, load, transcribe);
    run := AudioRun(Some(audioPath), Some(transcodedPath), {tmp, transcodedPath}, Ok(segments));
  }

  // ---------------------------------------------------------------- evaluations

  /** The per-parameter evaluator imported by the handlers; its definition is not part of this model. */
  type Evaluator = (TranscriptInput, ParameterRule) -> Result<Json, string>

  /**
   * `asyncio.gather` over the parameters, in parameter order: one result
   * per parameter, or the exception of the first evaluation that raised.
   */
  function Gathered(transcript: TranscriptInput, params: seq<ParameterRule>, evaluate: Evaluator): (r: Result<seq<Json>, string>)
    ensures r.Ok? <==> forall i :: 0 <= i < |params| ==> evaluate(transcript, params[i]).Ok?
    ensures r.Ok? ==> |r.value| == |params|
    ensures r.Ok? ==> forall i :: 0 <= i < |params| ==> r.value[i] == evaluate(transcript, params[i]).value
    ensures r.Err? ==> exists i :: 0 <= i < |params| && evaluate(transcript, params[i]) == Err(r.error)
                                   && forall j :: 0 <= j < i ==> evaluate(transcript, params[j]).Ok?
    decreases |params|
  {
    if params == [] then Ok([])
    else
      var init := params[..|params| - 1];
      assert forall i :: 0 <= i < |init| ==> init[i] == params[i];
      match Gathered(transcript, init, evaluate)
      case Err(e) => Err(e)
      case Ok(es) =>
        match evaluate(transcript, params[|params| - 1])
        case Err(e) => Err(e)
        case Ok(v) => Ok(es + [v])
  }

  /** The evaluations, one at a time. */
  method GatherEvaluations(transcript: TranscriptInput, params: seq<ParameterRule>, evaluate: Evaluator)
    returns (r: Result<seq<Json>, string>)
    ensures r == Gathered(transcript, params, evaluate)
  {
    var evaluations: seq<Json> := [];
    var i := 0;
    while i < |params|
      invariant 0 <= i <= |params|
      invariant |evaluations| == i
      invariant forall j :: 0 <= j < i ==> evaluate(transcript, params[j]) == Ok(evaluations[j])
    {
      var e := evaluate(transcript, params[i]);
      if e.Err? {
        var g := Gathered(transcript, params, evaluate);
        assert g.Err?;
        var k :| 0 <= k < |params| && evaluate(transcript, params[k]) == Err(g.error)
                 && forall j :: 0 <= j < k ==> evaluate(transcript, params[j]).Ok?;
        assert k == i;
        return Err(e.error);
      }
      evaluations := evaluations + [e.value];
      i := i + 1;
    }
    r := Ok(evaluations);
    assert r.value == Gathered(transcript, params, evaluate).value;
  }

  // ---------------------------------------------------------------- /analyze-audio

  function CompletedPayload(sampleId: Option<string>, html: string, evaluations: seq<Json>): Json {
    JDict(map["sampleId" := OptionalJson(sampleId), "status" := JString("completed"),
              "transcript" := JString(html), "evaluations" := JList(evaluations)])
  }

  function ErrorDetail(sampleId: Option<string>, message: string): Json {
    JDict(map["sampleId" := OptionalJson(sampleId), "status" := JString("error"), "error" := JString(message)])
  }

  function AuditDoneBody(): Json {
    JDict(map["message" := JString(AuditDone)])
  }

  /** `if not webhook_url` */
  predicate Configured(webhookUrl: Option<string>) {
    webhookUrl.Some? && webhookUrl.value != []
  }

  /** The webhook payload after a successful audio stage, or the message of the exception that ended the `try`. */
  function AuditOutcome(request: AuditRequest, run: AudioRun, evaluate: Evaluator): (r: Result<Json, string>)
    ensures r.Ok? <==> run.segments.Ok? && Gathered(SegmentList(run.segments.value), request.parameter, evaluate).Ok?
    ensures run.segments.Err? ==> r == Err(run.segments.error)
    ensures run.segments.Ok? && r.Err? ==>
      exists i :: 0 <= i < |request.parameter| && evaluate(SegmentList(run.segments.value), request.parameter[i]) == Err(r.error)
    ensures r.Ok? ==> (&& r.value.JDict? && "status" in r.value.fields && "sampleId" in r.value.fields
                       && r.value.fields["status"] == JString("completed")
                       && r.value.fields["sampleId"] == OptionalJson(request.sampleId))
  {
    match run.segments
    case Err(e) => Err(e)
    case Ok(segments) =>
      match Gathered(SegmentList(segments), request.parameter, evaluate)
      case Err(e) => Err(e)
      case Ok(evaluations) => Ok(CompletedPayload(request.sampleId, Concat(SegmentBlocks(segments)), evaluations))
  }

  /**
   * `/analyze-audio`. `webhook` is the payload POSTed to the webhook, if
   * any; the POST's own outcome is swallowed and does not appear.
   */
  method AuditCall(fs: TempFiles, pool: WhisperModelPool, request: AuditRequest, webhookUrl: Option<string>,
                   fetch: Fetch, fx: TranscodeEffects, load: Result<Model, string>,
                   transcribe: (Model, string) -> Result<Json, string>, evaluate: Evaluator)
    returns (webhook: Option<Json>, r: HandlerResult)
    requires pool.Valid()
    modifies fs, pool
    ensures pool.Valid()
    ensures !Configured(webhookUrl) ==>
      && r == HttpError(500, JString(WebhookMissing)) && webhook.None?
      && fs.existing == old(fs.existing) && pool.model == old(pool.model)
    ensures Configured(webhookUrl) ==>
      var run := AudioStage(request.audioUrl, fetch, fx, PoolAfter(old(pool.model), load), transcribe);
      var outcome := AuditOutcome(request, run, evaluate);
      && fs.existing == (old(fs.existing) + run.created) - (Tracked([run.audioPath, run.transcodedPath]) - fs.undeletable)
      && pool.model == (if run.transcodedPath.Some? then PoolAfter(old(pool.model), load) else old(pool.model))
      && (outcome.Ok? ==> webhook == Some(outcome.value) && r == Response(AuditDoneBody()))
      && (outcome.Err? ==> webhook.None? && r == HttpError(500, ErrorDetail(request.sampleId, outcome.error)))
  {
    if !Configured(webhookUrl) {
      return None, HttpError(500, JString(WebhookMissing));
    }
    var run := FetchAndTranscribe(fs, pool, request.audioUrl, fetch, fx, load, transcribe);
    webhook := None;
    if run.segments.Err? {
      r := HttpError(500, ErrorDetail(request.sampleId, run.segments.error));
    } else {
      var evaluations := GatherEvaluations(SegmentList(run.segments.value), request.parameter, evaluate);
      if evaluations.Err? {
        r := HttpError(500, ErrorDetail(request.sampleId, evaluations.error));
      } else {
        var html := FormatTranscriptWithoutSpeaker(run.segments.value);
        var payload := CompletedPayload(request.sampleId, html, evaluations.value);
        webhook := Some(payload);
        r := Response(AuditDoneBody());
      }
    }
    RemoveTempFiles(fs, [run.audioPath, run.transcodedPath]);
  }

  /** Any failure of the pipeline, the 400 of a failed download included, reaches the client as a 500 naming the sample. */
  lemma DownloadFailureIs500(request: AuditRequest, status: int, stem: string, copyError: Option<string>,
                             fx: TranscodeEffects, model: Option<Model>,
                             transcribe: (Model, string) -> Result<Json, string>, evaluate: Evaluator)
    requires status != 200
    ensures var run := AudioStage(request.audioUrl, Fetched(status, stem, copyError), fx, model, transcribe);
      && AuditOutcome(request, run, evaluate) == Err(DownloadFailed)
      && run.created == {}
  {
  }

  /**
   * When the copy into the temp file fails, `audio_path` is never
   * assigned, so the file outlives the request.
   */
  lemma CopyFailureLeaksTempFile(existing: set<string>, undeletable: set<string>, audioUrl: string,
                                 stem: string, e: string, fx: TranscodeEffects, model: Option<Model>,
                                 transcribe: (Model, string) -> Result<Json, string>)
    ensures var run := AudioStage(audioUrl, Fetched(200, stem, Some(e)), fx, model, transcribe);
      TempAudioPath(stem, audioUrl) in (existing + run.created) - (Tracked([run.audioPath, run.transcodedPath]) - undeletable)
  {
    var run := AudioStage(audioUrl, Fetched(200, stem, Some(e)), fx, model, transcribe);
    assert Tracked([run.audioPath, run.transcodedPath]) == {} by {
      assert run.audioPath.None? && run.transcodedPath.None?;
    }
  }

  /**
   * After a download that saved and an ffmpeg run that succeeded, the state
   * `AuditCall` ends in has neither the downloaded file nor ffmpeg's
   * `<temp dir>/<uuid>.wav` unless its removal fails, and every other file
   * is as it was before the call.
   */
  lemma TranscodedRunCleansUp(existing: set<string>, undeletable: set<string>, audioUrl: string,
                              stem: string, fx: TranscodeEffects, model: Option<Model>,
                              transcribe: (Model, string) -> Result<Json, string>)
    requires stem != [] && !IsWhisperCompatibleWav(fx.probe) && fx.ffmpeg.RunOk?
    ensures var run := AudioStage(audioUrl, Fetched(200, stem, None), fx, model, transcribe);
      var left := (existing + run.created) - (Tracked([run.audioPath, run.transcodedPath]) - undeletable);
      var tmp := TempAudioPath(stem, audioUrl);
      var out := OutputPath(fx.tempDir, fx.id);
      && run.transcodedPath == Some(out)
      && (tmp in left <==> tmp in undeletable)
      && (out in left <==> out in undeletable)
      && forall p :: p != tmp && p != out ==> (p in left <==> p in existing)
  {
    var run := AudioStage(audioUrl, Fetched(200, stem, None), fx, model, transcribe);
    var tmp := TempAudioPath(stem, audioUrl);
    var out := OutputPath(fx.tempDir, fx.id);
    var t := TranscodeToWhisperWav(tmp, fx.probe, fx.tempDir, fx.id, fx.ffmpeg);
    assert t.result == Ok(out);
    assert run == AudioRun(Some(tmp), Some(out), {tmp, out}, Ok(Heard(model, out, transcribe)));
    assert out != [] by {
      OutputIsWav(fx.tempDir, fx.id);
    }
    assert Tracked([run.audioPath, run.transcodedPath]) == {tmp, out} by {
      var paths := [run.audioPath, run.transcodedPath];
      assert paths[0] == Some(tmp) && paths[1] == Some(out);
    }
  }

  /** A successful audit posts one evaluation per parameter, in parameter order, with the formatted transcript. */
  lemma AuditPayloadShape(request: AuditRequest, run: AudioRun, evaluate: Evaluator)
    requires AuditOutcome(request, run, evaluate).Ok?
    ensures var p := AuditOutcome(request, run, evaluate).value;
      && run.segments.Ok? && p.JDict?
      && p.fields["status"] == JString("completed")
      && p.fields["transcript"] == JString(Concat(SegmentBlocks(run.segments.value)))
      && p.fields["evaluations"].JList?
      && |p.fields["evaluations"].items| == |request.parameter|
      && forall i :: 0 <= i < |request.parameter| ==>
           evaluate(SegmentList(run.segments.value), request.parameter[i]) == Ok(p.fields["evaluations"].items[i])
  {
  }

  // ---------------------------------------------------------------- /analyze-audio-testing

  /** `transcript and transcript.strip()`: a transcription with some non-space text skips the audio stage. */
  predicate PreTranscribed(transcription: Option<string>) {
    transcription.Some? && Strip(transcription.value) != []
  }

  /** `if not request.transcription` decides whether the payload carries a formatted transcript. */
  predicate Truthy(transcription: Option<string>) {
    transcription.Some? && transcription.value != []
  }

  function TestingErrorDetail(request: AuditRequest): Json {
    JDict(map["audioFileId" := OptionalJson(request.audioFileId), "userUuid" := OptionalJson(request.userUuid),
              "status" := JString("error")])
  }

  function TestingPayload(request: AuditRequest, transcript: Json, evaluations: seq<Json>): Json {
    JDict(map["audioFileId" := OptionalJson(request.audioFileId), "userUuid" := OptionalJson(request.userUuid),
              "status" := JString("completed"), "transcript" := transcript, "evaluations" := JList(evaluations)])
  }

  /** The transcript the evaluators see: the cleaned transcription, or what the audio stage heard. */
  function TestingTranscript(request: AuditRequest, run: AudioRun, removeTimestamps: string -> string)
    : (r: Result<TranscriptInput, string>)
    ensures PreTranscribed(request.transcription) ==> r.Ok? && r.value.RawText?
    ensures r.Ok? && r.value.SegmentList? ==> !PreTranscribed(request.transcription) && run.segments == Ok(r.value.segments)
    ensures r.Err? ==> !PreTranscribed(request.transcription) && run.segments == Err(r.error)
  {
    if PreTranscribed(request.transcription) then Ok(RawText(removeTimestamps(request.transcription.value)))
    else match run.segments
      case Err(e) => Err(e)
      case Ok(segments) => Ok(SegmentList(segments))
  }

  /**
   * The payload's `transcript`: `None` for a truthy transcription,
   * otherwise the segments formatted. Formatting a non-empty string would
   * index a character with `"text"` and raise `TypeError`.
   */
  function TranscriptField(transcription: Option<string>, transcript: TranscriptInput): (r: Result<Json, string>)
    ensures r == Ok(JNull) <==> Truthy(transcription)
    ensures transcript.SegmentList? ==> r.Ok?
    ensures r.Err? ==> r.error == TypeError && !Truthy(transcription) && !transcript.SegmentList?
  {
    if Truthy(transcription) then Ok(JNull)
    else match transcript
      case SegmentList(segments) => Ok(JString(Concat(SegmentBlocks(segments))))
      case RawText(text) => if text == [] then Ok(JString([])) else Err(TypeError)
      case OtherValue => Err(TypeError)
  }

  function TestingResult(request: AuditRequest, transcript: Result<TranscriptInput, string>, evaluate: Evaluator)
    : (r: HandlerResult)
    ensures r.HttpError? ==> r.status == 500 && r.detail == TestingErrorDetail(request)
    ensures r.Response? <==> (&& transcript.Ok? && Gathered(transcript.value, request.parameter, evaluate).Ok?
                              && TranscriptField(request.transcription, transcript.value).Ok?)
    ensures r.Response? ==> (&& r.body.JDict? && "status" in r.body.fields && "evaluations" in r.body.fields
                             && r.body.fields["status"] == JString("completed")
                             && r.body.fields["evaluations"] == JList(Gathered(transcript.value, request.parameter, evaluate).value))
  {
    match transcript
    case Err(_) => HttpError(500, TestingErrorDetail(request))
    case Ok(t) =>
      match Gathered(t, request.parameter, evaluate)
      case Err(_) => HttpError(500, TestingErrorDetail(request))
      case Ok(evaluations) =>
        match TranscriptField(request.transcription, t)
        case Err(_) => HttpError(500, TestingErrorDetail(request))
        case Ok(field) => Response(TestingPayload(request, field, evaluations))
  }

  /**
   * `/analyze-audio-testing`. `removeTimestamps` stands for the imported
   * `remove_timestamps_from_transcript`, which the transcript service does
   * not define.
   */
  method AuditCallTesting(fs: TempFiles, pool: WhisperModelPool, request: AuditRequest,
                          fetch: Fetch, fx: TranscodeEffects, load: Result<Model, string>,
                          transcribe: (Model, string) -> Result<Json, string>,
                          removeTimestamps: string -> string, evaluate: Evaluator)
    returns (r: HandlerResult)
    requires pool.Valid()
    modifies fs, pool
    ensures pool.Valid()
    ensures PreTranscribed(request.transcription) ==>
      && fs.existing == old(fs.existing) && pool.model == old(pool.model)
      && r == TestingResult(request, Ok(RawText(removeTimestamps(request.transcription.value))), evaluate)
    ensures !PreTranscribed(request.transcription) ==>
      var run := AudioStage(request.audioUrl, fetch, fx, PoolAfter(old(pool.model), load), transcribe);
      && fs.existing == (old(fs.existing) + run.created) - (Tracked([run.audioPath, run.transcodedPath]) - fs.undeletable)
      && pool.model == (if run.transcodedPath.Some? then PoolAfter(old(pool.model), load) else old(pool.model))
      && r == TestingResult(request, TestingTranscript(request, run, removeTimestamps), evaluate)
  {
    var transcript: TranscriptInput;
    var paths: seq<Option<string>> := [None, None];
    if !PreTranscribed(request.transcription) {
      var run := FetchAndTranscribe(fs, pool, request.audioUrl, fetch, fx, load, transcribe);
      paths := [run.audioPath, run.transcodedPath];
      if run.segments.Err? {
        r := HttpError(500, TestingErrorDetail(request));
        RemoveTempFiles(fs, paths);
        return;
      }
      transcript := SegmentList(run.segments.value);
    } else {
      transcript := RawText(removeTimestamps(request.transcription.value));
    }
    var evaluations := GatherEvaluations(transcript, request.parameter, evaluate);
    var field := TranscriptField(request.transcription, transcript);
    if evaluations.Err? || field.Err? {
      r := HttpError(500, TestingErrorDetail(request));
    } else {
      r := Response(TestingPayload(request, field.value, evaluations.value));
    }
    assert Tracked([None, None]) == {};
    RemoveTempFiles(fs, paths);
  }

  /**
   * The testing payload carries no transcript exactly when a transcription
   * was supplied, including a blank one that still took the audio path;
   * and its error payload never says what went wrong.
   */
  lemma TestingTranscriptOmitted(request: AuditRequest, run: AudioRun, removeTimestamps: string -> string, evaluate: Evaluator)
    ensures var r := TestingResult(request, TestingTranscript(request, run, removeTimestamps), evaluate);
      && (r.Response? ==> r.body.JDict? && (r.body.fields["transcript"] == JNull <==> Truthy(request.transcription)))
      && (r.HttpError? ==> r.status == 500 && r.detail.JDict? && "error" !in r.detail.fields)
  {
    var t := TestingTranscript(request, run, removeTimestamps);
    if !Truthy(request.transcription) {
      assert !PreTranscribed(request.transcription) by {
        if request.transcription.Some? {
          assert request.transcription.value == [];
          assert Strip([]) == [];
        }
      }
    }
  }

  // ---------------------------------------------------------------- /analyze-single-rule

  /** `str(request.ruleId)` */
  function RuleIdText(id: RuleId): string {
    match id
    case IntId(n) => IntToString(n)
    case StrId(s) => s
  }

  /** The one-rule list sent to the evaluator: the id as text and the rule on one line. */
  function SingleRuleList(request: SingleRuleRequest): Json {
    JList([JDict(map["ruleId" := JString(RuleIdText(request.ruleId)),
                     "rule" := JString(ReplaceChar(request.rule, '\n', ' '))])])
  }

  /** `not result_list`: the falsy JSON values. */
  predicate Falsy(j: Json) {
    match j
    case JNull => true
    case JBool(b) => !b
    case JInt(i) => i == 0
    case JReal(x) => x == 0.0
    case JString(s) => s == []
    case JList(items) => items == []
    case JDict(fields) => fields == map[]
  }

  /** `result.get(key, default)` on a dictionary. */
  function GetOr(fields: map<string, Json>, key: string, default: Json): Json {
    if key in fields then fields[key] else default
  }

  /** The fields handed to `SingleRuleResponse(...)`: the request's id and rule echoed, the rest from the first result. */
  function ResponseFields(request: SingleRuleRequest, first: map<string, Json>): Json {
    JDict(map["ruleId" := RuleIdJson(request.ruleId), "rule" := JString(request.rule),
              "result" := GetOr(first, "result", JString("Error")),
              "reason" := GetOr(first, "reason", JString("Could not evaluate")),
              "confidenceScore" := GetOr(first, "confidenceScore", JReal(0.0))])
  }

  /** A result field the response model accepts: a string, or a number for `confidenceScore`. */
  predicate FieldsWellTyped(first: map<string, Json>) {
    && ("result" !in first || first["result"].JString?)
    && ("reason" !in first || first["reason"].JString?)
    && ("confidenceScore" !in first || first["confidenceScore"].JReal? || first["confidenceScore"].JInt?)
  }

  /**
   * Each of `result`, `reason` and `confidenceScore` is the first result's
   * value when it has one and the default otherwise; the id and rule are
   * the request's.
   */
  lemma ResponseFieldsRead(request: SingleRuleRequest, first: map<string, Json>)
    ensures var r := SingleRuleResponseFrom(ResponseFields(request, first));
      && (r.Ok? <==> FieldsWellTyped(first))
      && (r.Ok? ==>
            && r.value.ruleId == request.ruleId && r.value.rule == request.rule
            && r.value.result == (if "result" in first then first["result"].s else "Error")
            && r.value.reason == (if "reason" in first then first["reason"].s else "Could not evaluate")
            && r.value.confidenceScore
               == (if "confidenceScore" in first then RealFrom(first["confidenceScore"], "confidenceScore").value else 0.0))
  {
    var f := ResponseFields(request, first).fields;
    assert RequiredRuleId(f, "ruleId") == Ok(request.ruleId);
    assert RequiredStr(f, "rule") == Ok(request.rule);
  }

  datatype SingleRuleOutcome = Answered(response: SingleRuleResponse) | Failed(status: int, detail: string)

  /**
   * `/analyze-single-rule`. `evaluate` stands for the imported confidence
   * evaluator over `(transcript, rule_list)`; its definition is not part of
   * this model.
   */
  function AnalyzeSingleRule(request: SingleRuleRequest, evaluate: (string, Json) -> Result<Json, string>): (r: SingleRuleOutcome)
    ensures r.Answered? ==> r.response.ruleId == request.ruleId && r.response.rule == request.rule
    ensures r.Failed? ==> r.status == 500 && RuleFailurePrefix <= r.detail
    ensures r.Answered? <==>
      var out := evaluate(request.transcript, SingleRuleList(request));
      && out.Ok? && out.value.JList? && out.value.items != [] && out.value.items[0].JDict?
      && SingleRuleResponseFrom(ResponseFields(request, out.value.items[0].fields)).Ok?
    ensures var out := evaluate(request.transcript, SingleRuleList(request));
      r.Answered? && out.Ok? && out.value.JList? && out.value.items != [] && out.value.items[0].JDict? ==>
        Ok(r.response) == SingleRuleResponseFrom(ResponseFields(request, out.value.items[0].fields))
  {
    match evaluate(request.transcript, SingleRuleList(request))
    case Err(e) => Failed(500, RuleFailurePrefix + e)
    case Ok(resultList) =>
      if Falsy(resultList) || !resultList.JList? then Failed(500, RuleFailurePrefix + InvalidAiResponse)
      else
        var first := resultList.items[0];
        if !first.JDict? then Failed(500, RuleFailurePrefix + AttributeError)
        else
          match SingleRuleResponseFrom(ResponseFields(request, first.fields))
          case Err(_) => Failed(500, RuleFailurePrefix + ValidationError)
          case Ok(response) =>
            assert response.ruleId == request.ruleId && response.rule == request.rule by {
              var f := ResponseFields(request, first.fields).fields;
              assert RequiredRuleId(f, "ruleId") == Ok(request.ruleId);
              assert RequiredStr(f, "rule") == Ok(request.rule);
            }
            Answered(response)
  }

  /**
   * Whatever else the result list holds, a well-typed first result is
   * answered with its own `result`, `reason` and `confidenceScore`, each
   * replaced by its default when absent; an ill-typed one is a 500.
   */
  lemma SingleRuleFieldsOrDefaults(request: SingleRuleRequest, evaluate: (string, Json) -> Result<Json, string>,
                                   first: map<string, Json>, rest: seq<Json>)
    requires evaluate(request.transcript, SingleRuleList(request)) == Ok(JList([JDict(first)] + rest))
    ensures var r := AnalyzeSingleRule(request, evaluate);
      && (r.Answered? <==> FieldsWellTyped(first))
      && (r.Answered? ==>
            && r.response.ruleId == request.ruleId && r.response.rule == request.rule
            && r.response.result == (if "result" in first then first["result"].s else "Error")
            && r.response.reason == (if "reason" in first then first["reason"].s else "Could not evaluate")
            && r.response.confidenceScore
               == (if "confidenceScore" in first then RealFrom(first["confidenceScore"], "confidenceScore").value else 0.0))
  {
    ResponseFieldsRead(request, first);
    assert ([JDict(first)] + rest)[0] == JDict(first);
  }

  /** A first result without `result`, `reason` or `confidenceScore` gets "Error", "Could not evaluate" and 0.0. */
  lemma SingleRuleDefaults(request: SingleRuleRequest, evaluate: (string, Json) -> Result<Json, string>,
                           first: map<string, Json>, rest: seq<Json>)
    requires evaluate(request.transcript, SingleRuleList(request)) == Ok(JList([JDict(first)] + rest))
    requires "result" !in first && "reason" !in first && "confidenceScore" !in first
    ensures AnalyzeSingleRule(request, evaluate)
      == Answered(SingleRuleResponse(request.ruleId, request.rule, "Error", "Could not evaluate", 0.0))
  {
    SingleRuleFieldsOrDefaults(request, evaluate, first, rest);
  }

  /** The evaluator gets exactly one rule, on one line, whose id text reads back to the request's id. */
  lemma SingleRuleListShape(request: SingleRuleRequest)
    ensures var l := SingleRuleList(request);
      && |l.items| == 1
      && '\n' !in l.items[0].fields["rule"].s
      && |l.items[0].fields["rule"].s| == |request.rule|
      && (request.ruleId.IntId? ==> ParseInt(l.items[0].fields["ruleId"].s) == Some(request.ruleId.n))
  {
    var rule := ReplaceChar(request.rule, '\n', ' ');
    assert forall i :: 0 <= i < |rule| ==> rule[i] != '\n';
    if request.ruleId.IntId? {
      ParseIntRoundTrip(request.ruleId.n);
    }
  }
}
