/**
 * The shared Whisper model pool (load lazily once, clear, load again) and
 * the projection of a Whisper result onto `{start, text}` segments, where
 * any failure gives an empty transcript.
 */
module WhisperService {
  import opened Wrappers
  import opened Text
  import opened JsonValues
  import opened Segments

  /** A loaded Whisper model; `handle` tells two loads apart. */
  datatype Model = Model(size: string, handle: nat)

  const DefaultSize: string := "base"

  /**
   * `WhisperModelPool`: `model` is `_model`. The ghost counters record how
   * many models were loaded and unloaded since the pool was created; the
   * invariant says at most one load happens between two clears.
   */
  class WhisperModelPool {
    var model: Option<Model>
    ghost var loads: nat
    ghost var unloads: nat

    ghost predicate Valid()
      reads this
    {
      loads == unloads + (if model.Some? then 1 else 0)
    }

    constructor()
      ensures Valid() && model.None? && loads == 0 && unloads == 0
    {
      model := None;
      loads := 0;
      unloads := 0;
    }

    /**
     * `get_model(size)`: `load` is what `whisper.load_model(size)` gives
     * (a model, or the exception it raises); it is consulted only when no
     * model is held, so a held model is returned whatever size is asked.
     */
    method GetModel(size: string, load: Result<Model, string>) returns (r: Result<Model, string>)
      requires Valid()
      modifies this
      ensures Valid()
      ensures old(model).Some? ==> r == Ok(old(model).value) && model == old(model) && loads == old(loads)
      ensures old(model).None? ==> r == load && model == (if load.Ok? then Some(load.value) else None)
      ensures old(model).None? ==> loads == old(loads) + (if load.Ok? then 1 else 0)
      ensures unloads == old(unloads)
    {
      if model.None? {
        match load
        case Ok(m) =>
          model := Some(m);
          loads := loads + 1;
        case Err(_) =>
      }
      r := if model.Some? then Ok(model.value) else load;
    }

    /** `clear_model`: unloads a held model; with none held nothing changes. */
    method ClearModel()
      requires Valid()
      modifies this
      ensures Valid() && model.None?
      ensures old(model).None? ==> unloads == old(unloads)
      ensures old(model).Some? ==> unloads == old(unloads) + 1
      ensures loads == old(loads)
    {
      if model.Some? {
        model := None;
        unloads := unloads + 1;
      }
    }
  }

  /** `{"start": seg["start"], "text": seg["text"].strip()}`; `None` when the lookups or `strip` raise. */
  function SegmentOf(seg: Json): (r: Option<Segment>)
    ensures r.Some? <==> (&& seg.JDict? && "start" in seg.fields && "text" in seg.fields
                          && seg.fields["text"].JString? && (seg.fields["start"].JReal? || seg.fields["start"].JInt?))
    ensures r.Some? ==> r.value.text == Strip(seg.fields["text"].s) && NoSpaceAtEnds(r.value.text)
    ensures r.Some? ==> (if seg.fields["start"].JReal? then seg.fields["start"].r else seg.fields["start"].i as real) == r.value.start
  {
    if seg.JDict? && "start" in seg.fields && "text" in seg.fields && seg.fields["text"].JString? then
      match seg.fields["start"]
      case JReal(r) => Some(Segment(r, Strip(seg.fields["text"].s)))
      case JInt(n) => Some(Segment(n as real, Strip(seg.fields["text"].s)))
      case _ => None
    else None
  }

  /** The list comprehension over the segments: all of them, or `None` when one of them raises. */
  function SegmentsFrom(items: seq<Json>): (r: Option<seq<Segment>>)
    ensures r.Some? <==> forall i :: 0 <= i < |items| ==> SegmentOf(items[i]).Some?
    ensures r.Some? ==> (|r.value| == |items|
      && forall i :: 0 <= i < |items| ==> SegmentOf(items[i]) == Some(r.value[i]))
    decreases |items|
  {
    if items == [] then Some([])
    else match (SegmentOf(items[0]), SegmentsFrom(items[1..]))
      case (Some(s), Some(rest)) =>
        assert forall i :: 1 <= i < |items| ==> items[1..][i - 1] == items[i];
        Some([s] + rest)
      case (None, _) => None
      case (_, None) =>
        assert exists i :: 0 <= i < |items| - 1 && SegmentOf(items[1..][i]).None?;
        None
  }

  /**
   * `result.get("segments", [])` iterated: a missing key is an empty list;
   * iterating a non-list raises unless it is empty.
   */
  function SegmentsOf(result: Json): (r: Option<seq<Segment>>)
    ensures !result.JDict? ==> r.None?
    ensures result.JDict? && "segments" !in result.fields ==> r == Some([])
    ensures r.Some? && r.value != [] ==> (&& result.JDict? && "segments" in result.fields
                                          && result.fields["segments"].JList?
                                          && SegmentsFrom(result.fields["segments"].items) == r)
  {
    if !result.JDict? then None
    else if "segments" !in result.fields then Some([])
    else match result.fields["segments"]
      case JList(items) => SegmentsFrom(items)
      case JDict(m) => if m == map[] then Some([]) else None
      case JString(s) => if s == [] then Some([]) else None
      case _ => None
  }

  /** The value of `transcribe_audio_whisper` for the outcome of `model.transcribe`: `[]` on any failure. */
  function Transcribed(outcome: Result<Json, string>): (r: seq<Segment>)
    ensures r != [] ==> (outcome.Ok? && outcome.value.JDict? && "segments" in outcome.value.fields
      && outcome.value.fields["segments"].JList?
      && var items := outcome.value.fields["segments"].items;
         |r| == |items| && forall i :: 0 <= i < |items| ==> SegmentOf(items[i]) == Some(r[i]))
    ensures (&& outcome.Ok? && outcome.value.JDict? && "segments" in outcome.value.fields
             && outcome.value.fields["segments"].JList?
             && forall i :: 0 <= i < |outcome.value.fields["segments"].items| ==>
                  SegmentOf(outcome.value.fields["segments"].items[i]).Some?)
      ==> (var items := outcome.value.fields["segments"].items;
           |r| == |items| && forall i :: 0 <= i < |items| ==> SegmentOf(items[i]) == Some(r[i]))
  {
    match outcome
    case Err(_) => []
    case Ok(j) =>
      match SegmentsOf(j)
      case Some(segs) => segs
      case None => []
  }

  /** Every projected text is stripped. */
  lemma TranscribedTextsStripped(outcome: Result<Json, string>)
    ensures forall i :: 0 <= i < |Transcribed(outcome)| ==> NoSpaceAtEnds(Transcribed(outcome)[i].text)
  {
    var r := Transcribed(outcome);
    if r != [] {
      var items := outcome.value.fields["segments"].items;
      forall i | 0 <= i < |r|
        ensures NoSpaceAtEnds(r[i].text)
      {
        assert SegmentOf(items[i]) == Some(r[i]);
      }
    }
  }

  /** A result without segments and a failed transcription look the same: an empty transcript. */
  lemma FailureLooksEmpty(e: string, fields: map<string, Json>)
    requires "segments" !in fields
    ensures Transcribed(Err(e)) == Transcribed(Ok(JDict(fields))) == []
  {
  }

  /**
   * `transcribe_audio_whisper(audio_path)`: gets the shared model (loading
   * it with `load` if none is held), then projects the outcome of
   * `transcribe(model, audio_path)`.
   */
  method TranscribeAudioWhisper(pool: WhisperModelPool, audioPath: string, load: Result<Model, string>,
                                transcribe: (Model, string) -> Result<Json, string>)
    returns (segments: seq<Segment>)
    requires pool.Valid()
    modifies pool
    ensures pool.Valid()
    ensures pool.model == (if old(pool.model).Some? then old(pool.model) else if load.Ok? then Some(load.value) else None)
    ensures pool.model.None? ==> segments == []
    ensures pool.model.Some? ==> segments == Transcribed(transcribe(pool.model.value, audioPath))
  {
    var m := pool.GetModel(DefaultSize, load);
    match m
    case Err(_) =>
      segments := [];
    case Ok(model) =>
      segments := Transcribed(transcribe(model, audioPath));
  }
}
