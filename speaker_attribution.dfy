/**
 * `pyannote-diarization/speaker_attributed_transcript.py`: each transcript
 * segment takes the label of the first diarization turn, in list order,
 * whose half-open interval `[start, end)` holds the segment's start;
 * "Unknown" when there is none.
 */
module SpeakerAttribution {
  import opened Wrappers
  import opened Text
  import opened Html
  import opened Timestamps
  import opened Blocks
  import opened Segments
  import TranscriptService

  /** A diarization turn: `{"start", "end", "speaker"}`. */
  datatype Turn = Turn(start: real, end: real, speaker: string)

  const UnknownSpeaker: string := "Unknown"
  const AgentLabel: string := "SPEAKER_00"

  predicate Covers(turn: Turn, t: real) {
    turn.start <= t < turn.end
  }

  /** The index of the first turn covering `t`. */
  function FirstCovering(turns: seq<Turn>, t: real): (r: Option<nat>)
    ensures r.Some? ==> r.value < |turns| && Covers(turns[r.value], t)
    ensures r.Some? ==> forall j :: 0 <= j < r.value ==> !Covers(turns[j], t)
    ensures r.None? <==> forall j :: 0 <= j < |turns| ==> !Covers(turns[j], t)
  {
    if turns == [] then None
    else if Covers(turns[0], t) then Some(0)
    else match FirstCovering(turns[1..], t)
      case None => None
      case Some(i) => Some(i + 1)
  }

  /** The label of the first turn covering `t`, or "Unknown" when no turn does. */
  function SpeakerAt(turns: seq<Turn>, t: real): (r: string)
    ensures (forall j :: 0 <= j < |turns| ==> !Covers(turns[j], t)) ==> r == UnknownSpeaker
    ensures (exists j :: 0 <= j < |turns| && Covers(turns[j], t)) ==>
      exists i :: 0 <= i < |turns| && Covers(turns[i], t) && r == turns[i].speaker
                  && forall j :: 0 <= j < i ==> !Covers(turns[j], t)
  {
    match FirstCovering(turns, t)
    case None => UnknownSpeaker
    case Some(i) => turns[i].speaker
  }

  function ClassName(speaker: string): (cls: string)
    ensures cls == "agentClass" <==> speaker == AgentLabel
    ensures cls == "agentClass" || cls == "customerClass"
  {
    if speaker == AgentLabel then "agentClass" else "customerClass"
  }

  /** The inner loop: scan the turns in order and stop at the first that covers `t`. */
  method FindSpeaker(diarization: seq<Turn>, textStart: real) returns (speaker: string)
    ensures speaker == SpeakerAt(diarization, textStart)
  {
    speaker := UnknownSpeaker;
    var i := 0;
    while i < |diarization|
      invariant 0 <= i <= |diarization|
      invariant forall j :: 0 <= j < i ==> !Covers(diarization[j], textStart)
    {
      var d := diarization[i];
      if d.start <= textStart < d.end {
        speaker := d.speaker;
        assert FirstCovering(diarization, textStart) == Some(i);
        return;
      }
      i := i + 1;
    }
  }

  /** A turn ends where the next begins: a segment starting at that instant goes to the later turn. */
  lemma HalfOpenTurns(a: Turn, b: Turn, rest: seq<Turn>)
    requires a.start < a.end == b.start < b.end
    ensures SpeakerAt([a, b] + rest, a.end) == b.speaker
  {
    var turns := [a, b] + rest;
    assert turns[1..] == [b] + rest;
    assert FirstCovering([b] + rest, a.end) == Some(0);
    assert FirstCovering(turns, a.end) == Some(1);
  }

  function AttributedBlock(diarization: seq<Turn>, seg: Segment): string {
    var speaker := SpeakerAt(diarization, seg.start);
    Collapse(SpeakerTemplate(ClassName(speaker), SecondsToTimestamp(seg.start), speaker, Escape(Strip(seg.text))))
  }

  function AttributedBlocks(diarization: seq<Turn>, segments: seq<Segment>): (r: seq<string>)
    ensures |r| == |segments|
    ensures forall i :: 0 <= i < |segments| ==> r[i] == AttributedBlock(diarization, segments[i])
  {
    MapStrings(seg => AttributedBlock(diarization, seg), segments)
  }

  /** The body of the outer loop: one segment's block. */
  method AttributeSegment(diarization: seq<Turn>, segment: Segment) returns (block: string)
    ensures block == AttributedBlock(diarization, segment)
  {
    var speaker := FindSpeaker(diarization, segment.start);
    var className := ClassName(speaker);
    var timestamp := SecondsToTimestamp(segment.start);
    var escapedText := Escape(Strip(segment.text));
    block := Collapse(SpeakerTemplate(className, timestamp, speaker, escapedText));
  }

  method MatchDiarizationWithTranscript(diarization: seq<Turn>, whisperSegments: seq<Segment>) returns (html: string)
    ensures html == Concat(AttributedBlocks(diarization, whisperSegments))
  {
    var outputLines: seq<string> := [];
    var k := 0;
    while k < |whisperSegments|
      invariant 0 <= k <= |whisperSegments|
      invariant outputLines == AttributedBlocks(diarization, whisperSegments[..k])
    {
      var segment := whisperSegments[k];
      var block := AttributeSegment(diarization, segment);
      MapStringsStep(seg => AttributedBlock(diarization, seg), whisperSegments, k);
      outputLines := outputLines + [block];
      k := k + 1;
    }
    assert whisperSegments[..|whisperSegments|] == whisperSegments;
    html := Concat(outputLines);
  }

  // ---------------------------------------------------------------- what the page shows

  /** Labels the reader can delimit and the collapse keeps whole. */
  predicate PlainLabels(diarization: seq<Turn>) {
    forall i :: 0 <= i < |diarization| ==> '<' !in diarization[i].speaker && '\n' !in diarization[i].speaker
  }

  function AttributedRow(diarization: seq<Turn>, seg: Segment): SpeakerRow {
    var speaker := SpeakerAt(diarization, seg.start);
    SpeakerRow(ClassName(speaker), SecondsToTimestamp(seg.start), speaker, TranscriptService.ShownText(seg.text))
  }

  function AttributedRows(diarization: seq<Turn>, segments: seq<Segment>): (r: seq<SpeakerRow>)
    ensures |r| == |segments|
    ensures forall i :: 0 <= i < |segments| ==> r[i] == AttributedRow(diarization, segments[i])
  {
    seq(|segments|, i requires 0 <= i < |segments| => AttributedRow(diarization, segments[i]))
  }

  lemma SpeakerAtIsPlain(diarization: seq<Turn>, t: real)
    requires PlainLabels(diarization)
    ensures '<' !in SpeakerAt(diarization, t) && '\n' !in SpeakerAt(diarization, t)
    ensures '"' !in ClassName(SpeakerAt(diarization, t)) && '\n' !in ClassName(SpeakerAt(diarization, t))
  {
  }

  lemma AttributedBlockShape(diarization: seq<Turn>, seg: Segment)
    requires PlainLabels(diarization)
    ensures Delimited(AttributedRow(diarization, seg))
    ensures AttributedBlock(diarization, seg) == RowHtml(AttributedRow(diarization, seg))
  {
    var speaker := SpeakerAt(diarization, seg.start);
    SpeakerAtIsPlain(diarization, seg.start);
    TimestampIsTight(Trunc(seg.start));
    TimestampAvoids(Trunc(seg.start), '<');
    TranscriptService.ShownTextFacts(seg.text);
    SpeakerCollapse(ClassName(speaker), SecondsToTimestamp(seg.start), speaker, Escape(Strip(seg.text)));
  }

  /**
   * The page lists every segment, in order, with the label of the first
   * turn covering its start (or "Unknown"), the class that goes with the
   * label, its timestamp and its escaped text.
   */
  lemma AttributedReadsBack(diarization: seq<Turn>, segments: seq<Segment>)
    requires PlainLabels(diarization)
    ensures ReadSpeakers(Concat(AttributedBlocks(diarization, segments))) == Some(AttributedRows(diarization, segments))
  {
    var blocks := AttributedBlocks(diarization, segments);
    var rows := AttributedRows(diarization, segments);
    forall i | 0 <= i < |segments|
      ensures Delimited(rows[i]) && blocks[i] == RowHtml(rows[i])
    {
      AttributedBlockShape(diarization, segments[i]);
    }
    ReadSpeakersRoundTrip(blocks, rows);
  }

  /** The page is one line. */
  lemma AttributedHasNoNewline(diarization: seq<Turn>, segments: seq<Segment>)
    ensures '\n' !in Concat(AttributedBlocks(diarization, segments))
  {
    var blocks := AttributedBlocks(diarization, segments);
    forall i | 0 <= i < |blocks| ensures '\n' !in blocks[i] {
      var speaker := SpeakerAt(diarization, segments[i].start);
      CollapseHasNoNewline(SpeakerTemplate(ClassName(speaker), SecondsToTimestamp(segments[i].start), speaker,
        Escape(Strip(segments[i].text))));
    }
    ConcatKeepsOut(blocks, '\n');
  }
}
