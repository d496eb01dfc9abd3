/**
 * `services/transcript_utils.py`: the older speaker formatter. Its label is
 * sticky: a segment without any cue keeps the previous segment's label,
 * starting from "Agent"; a customer cue gives "User", an agent cue
 * "Assistant". The text is stripped but not escaped.
 */
module TranscriptUtils {
  import opened Wrappers
  import opened Text
  import opened Html
  import opened Timestamps
  import opened Blocks
  import opened Segments
  import TranscriptService

  const AgentCues: seq<string> := [
    "thank you for calling", "how may i", "can i have", "let me", "i can help", "your order is",
    "this is", "have a nice day", "you're welcome", "we can process",
    "bienvenido al centro", "le puedo ayudar", "d\U{00ED}game", "est\U{00E1} necesitando", "le recuerdo"
  ]

  const CustomerCues: seq<string> := [
    "my name is", "i'd like", "sure", "yes", "okay", "that's fine", "i want", "i need",
    "thank you", "i called", "i'm calling", "i have a question",
    "me llamo", "necesito", "mi abuela", "yo habl\U{00E9}", "fui a llevar",
    "tengo el formulario", "lo fui a llevar"
  ]

  const InitialSpeaker: string := "Agent"

  /** Which cue list, if any, a lower-cased text matches; customer cues are tried first. */
  datatype Cue = UserCue | AssistantCue | NoCue

  function CueOf(lower: string): (c: Cue)
    ensures c == UserCue <==> TranscriptService.AnyCue(lower, CustomerCues)
    ensures c == AssistantCue <==>
      !TranscriptService.AnyCue(lower, CustomerCues) && TranscriptService.AnyCue(lower, AgentCues)
  {
    if TranscriptService.AnyCue(lower, CustomerCues) then UserCue
    else if TranscriptService.AnyCue(lower, AgentCues) then AssistantCue
    else NoCue
  }

  /** The cue of every segment's stripped, lower-cased text. */
  function SegmentCues(segments: seq<Segment>): (r: seq<Cue>)
    ensures |r| == |segments|
    ensures forall i :: 0 <= i < |segments| ==> r[i] == CueOf(Lower(Strip(segments[i].text)))
  {
    seq(|segments|, i requires 0 <= i < |segments| => CueOf(Lower(Strip(segments[i].text))))
  }

  /** One step of the label: a cue decides, otherwise the last label carries over. */
  function NextSpeaker(last: string, cue: Cue): (r: string)
    ensures cue == NoCue ==> r == last
    ensures cue != NoCue ==> r != InitialSpeaker
  {
    match cue
    case UserCue => "User"
    case AssistantCue => "Assistant"
    case NoCue => last
  }

  /** The labels of a run of segments, starting after the label `last`. */
  function SpeakersFrom(last: string, cues: seq<Cue>): (r: seq<string>)
    ensures |r| == |cues|
    decreases |cues|
  {
    if cues == [] then []
    else
      var speaker := NextSpeaker(last, cues[0]);
      [speaker] + SpeakersFrom(speaker, cues[1..])
  }

  /** The label of every segment, in order, from the cues of the segments. */
  function Speakers(cues: seq<Cue>): (r: seq<string>)
    ensures |r| == |cues|
  {
    SpeakersFrom(InitialSpeaker, cues)
  }

  function ClassName(speaker: string): (cls: string)
    ensures cls == "assistantClass" <==> speaker == "Assistant"
    ensures cls == "assistantClass" || cls == "userClass"
  {
    if speaker == "Assistant" then "assistantClass" else "userClass"
  }

  /** Without a cue the label carries over. */
  lemma {:induction false} NoCueCarries(last: string, cues: seq<Cue>, i: nat)
    requires i < |cues| && forall k :: 0 <= k <= i ==> cues[k] == NoCue
    ensures SpeakersFrom(last, cues)[i] == last
    decreases i
  {
    if i > 0 {
      NoCueCarries(last, cues[1..], i - 1);
    }
  }

  /** Once a cue has been seen the label is never "Agent" again. */
  lemma {:induction false} NeverBackToAgent(last: string, cues: seq<Cue>, i: nat)
    requires i < |cues| && last != InitialSpeaker
    ensures SpeakersFrom(last, cues)[i] != InitialSpeaker
    decreases i
  {
    if i > 0 {
      NeverBackToAgent(NextSpeaker(last, cues[0]), cues[1..], i - 1);
    }
  }

  /**
   * A segment keeps the initial label "Agent" exactly when no segment up to
   * it carries a cue; its class is then "userClass".
   */
  lemma {:induction false} AgentUntilFirstCue(cues: seq<Cue>, i: nat)
    requires i < |cues|
    ensures Speakers(cues)[i] == InitialSpeaker <==> forall j :: 0 <= j <= i ==> cues[j] == NoCue
    decreases i
  {
    if cues[0] != NoCue {
      NeverBackToAgent(NextSpeaker(InitialSpeaker, cues[0]), cues, i);
      if i > 0 {
        NeverBackToAgent(NextSpeaker(InitialSpeaker, cues[0]), cues[1..], i - 1);
      }
    } else if i > 0 {
      AgentUntilFirstCue(cues[1..], i - 1);
      assert forall j :: 1 <= j <= i ==> cues[1..][j - 1] == cues[j];
    }
  }

  /** The label of a segment is the one given by the most recent cue at or before it. */
  lemma {:induction false} LatestCueDecides(cues: seq<Cue>, j: nat, i: nat)
    requires j <= i < |cues| && cues[j] != NoCue
    requires forall k :: j < k <= i ==> cues[k] == NoCue
    ensures Speakers(cues)[i] == (if cues[j] == UserCue then "User" else "Assistant")
  {
    LatestCueDecidesFrom(InitialSpeaker, cues, j, i);
  }

  lemma {:induction false} LatestCueDecidesFrom(last: string, cues: seq<Cue>, j: nat, i: nat)
    requires j <= i < |cues| && cues[j] != NoCue
    requires forall k :: j < k <= i ==> cues[k] == NoCue
    ensures SpeakersFrom(last, cues)[i] == (if cues[j] == UserCue then "User" else "Assistant")
    decreases j
  {
    var next := NextSpeaker(last, cues[0]);
    if j > 0 {
      assert forall k :: j - 1 < k <= i - 1 ==> cues[1..][k] == cues[k + 1];
      LatestCueDecidesFrom(next, cues[1..], j - 1, i - 1);
    } else if i > 0 {
      assert forall k :: 0 <= k <= i - 1 ==> cues[1..][k] == cues[k + 1];
      NoCueCarries(next, cues[1..], i - 1);
    }
  }

  /** The block for a segment given its label; the stripped text goes in unescaped. */
  function UtilsBlock(seg: Segment, speaker: string): string {
    Collapse(SpeakerTemplate(ClassName(speaker), SecondsToTimestamp(seg.start), speaker, Strip(seg.text)))
  }

  /** The blocks of a run of segments, starting after the label `last`. */
  function BlocksFrom(last: string, segments: seq<Segment>): (r: seq<string>)
    ensures |r| == |segments|
    decreases |segments|
  {
    if segments == [] then []
    else
      var speaker := NextSpeaker(last, CueOf(Lower(Strip(segments[0].text))));
      [UtilsBlock(segments[0], speaker)] + BlocksFrom(speaker, segments[1..])
  }

  function UtilsBlocks(segments: seq<Segment>): (r: seq<string>)
    ensures |r| == |segments|
  {
    BlocksFrom(InitialSpeaker, segments)
  }

  /** The first block carries the first label. */
  lemma BlocksFromFirst(last: string, segments: seq<Segment>)
    requires segments != []
    ensures BlocksFrom(last, segments)[0] == UtilsBlock(segments[0], SpeakersFrom(last, SegmentCues(segments))[0])
  {
    var cues := SegmentCues(segments);
    assert SpeakersFrom(last, cues)[0] == NextSpeaker(last, cues[0]);
  }

  /** After the first segment, both the blocks and the labels go on from the first label. */
  lemma BlocksFromRest(last: string, segments: seq<Segment>)
    requires segments != []
    ensures var next := SpeakersFrom(last, SegmentCues(segments))[0];
      && BlocksFrom(last, segments)[1..] == BlocksFrom(next, segments[1..])
      && SpeakersFrom(last, SegmentCues(segments))[1..] == SpeakersFrom(next, SegmentCues(segments[1..]))
  {
    var cues := SegmentCues(segments);
    assert cues[1..] == SegmentCues(segments[1..]);
  }

  lemma {:induction false} BlocksFromLabels(last: string, segments: seq<Segment>, k: nat)
    requires k < |segments|
    ensures BlocksFrom(last, segments)[k] == UtilsBlock(segments[k], SpeakersFrom(last, SegmentCues(segments))[k])
    decreases k
  {
    if k == 0 {
      BlocksFromFirst(last, segments);
    } else {
      var next := SpeakersFrom(last, SegmentCues(segments))[0];
      BlocksFromRest(last, segments);
      BlocksFromLabels(next, segments[1..], k - 1);
      assert BlocksFrom(last, segments)[k] == BlocksFrom(last, segments)[1..][k - 1];
      assert SpeakersFrom(last, SegmentCues(segments))[k] == SpeakersFrom(last, SegmentCues(segments))[1..][k - 1];
      assert segments[k] == segments[1..][k - 1];
    }
  }

  /** Each block carries the segment's stripped text and the sticky label worked out above. */
  lemma UtilsBlocksLabels(segments: seq<Segment>, k: nat)
    requires k < |segments|
    ensures UtilsBlocks(segments)[k] == UtilsBlock(segments[k], Speakers(SegmentCues(segments))[k])
  {
    BlocksFromLabels(InitialSpeaker, segments, k);
  }

  /** One turn of the formatting loop: the next block, then the blocks after it. */
  lemma BlocksFromStep(last: string, segments: seq<Segment>, i: nat)
    requires i < |segments|
    ensures var speaker := NextSpeaker(last, CueOf(Lower(Strip(segments[i].text))));
      BlocksFrom(last, segments[i..]) == [UtilsBlock(segments[i], speaker)] + BlocksFrom(speaker, segments[i + 1..])
  {
    assert segments[i..][0] == segments[i];
    assert segments[i..][1..] == segments[i + 1..];
  }

  /** `speaker = last_speaker`, then a customer cue, else an agent cue, overrides it. */
  method DetectSpeaker(lastSpeaker: string, lower: string) returns (speaker: string)
    ensures speaker == NextSpeaker(lastSpeaker, CueOf(lower))
  {
    speaker := lastSpeaker;
    if TranscriptService.AnyCue(lower, CustomerCues) {
      speaker := "User";
    } else if TranscriptService.AnyCue(lower, AgentCues) {
      speaker := "Assistant";
    }
  }

  /** The body of the formatting loop for one segment: its label and its block. */
  method FormatSegment(seg: Segment, lastSpeaker: string) returns (cleanHtml: string, speaker: string)
    ensures speaker == NextSpeaker(lastSpeaker, CueOf(Lower(Strip(seg.text))))
    ensures cleanHtml == UtilsBlock(seg, speaker)
  {
    var text := Strip(seg.text);
    var lower := Lower(text);
    var startTime := SecondsToTimestamp(seg.start);
    speaker := DetectSpeaker(lastSpeaker, lower);
    var className := ClassName(speaker);
    cleanHtml := Collapse(SpeakerTemplate(className, startTime, speaker, text));
  }

  method FormatTranscriptWithSpeakers(segments: seq<Segment>) returns (html: string)
    ensures html == Concat(UtilsBlocks(segments))
  {
    var transcriptLines: seq<string> := [];
    var lastSpeaker := InitialSpeaker;
    var i := 0;
    while i < |segments|
      invariant 0 <= i <= |segments|
      invariant transcriptLines + BlocksFrom(lastSpeaker, segments[i..]) == UtilsBlocks(segments)
    {
      var cleanHtml, speaker := FormatSegment(segments[i], lastSpeaker);
      BlocksFromStep(lastSpeaker, segments, i);
      AppendRegroup(transcriptLines, cleanHtml, BlocksFrom(speaker, segments[i + 1..]));
      lastSpeaker := speaker;
      transcriptLines := transcriptLines + [cleanHtml];
      i := i + 1;
    }
    assert transcriptLines + [] == transcriptLines;
    html := Concat(transcriptLines);
  }

  lemma AppendRegroup(xs: seq<string>, x: string, ys: seq<string>)
    ensures xs + ([x] + ys) == (xs + [x]) + ys
  {
  }

  // ---------------------------------------------------------------- what the page shows

  /** Every label is the starting one, "User" or "Assistant". */
  lemma {:induction false} LabelsKnown(last: string, cues: seq<Cue>, k: nat)
    requires k < |cues|
    ensures SpeakersFrom(last, cues)[k] in {last, "User", "Assistant"}
    decreases k
  {
    if k > 0 {
      var next := NextSpeaker(last, cues[0]);
      LabelsKnown(next, cues[1..], k - 1);
    }
  }

  /** The row a reader recovers from a segment's block, given its label. */
  function UtilsRow(seg: Segment, speaker: string): SpeakerRow {
    SpeakerRow(ClassName(speaker), SecondsToTimestamp(seg.start), speaker, Collapse(Strip(seg.text)))
  }

  function UtilsRows(segments: seq<Segment>): (r: seq<SpeakerRow>)
    ensures |r| == |segments|
    ensures forall k :: 0 <= k < |segments| ==> r[k] == UtilsRow(segments[k], Speakers(SegmentCues(segments))[k])
  {
    var labels := Speakers(SegmentCues(segments));
    seq(|segments|, k requires 0 <= k < |segments| => UtilsRow(segments[k], labels[k]))
  }

  lemma LabelsAreTight(speaker: string)
    requires speaker in {InitialSpeaker, "User", "Assistant"}
    ensures '\n' !in speaker && '<' !in speaker
    ensures '\n' !in ClassName(speaker) && '"' !in ClassName(speaker)
  {
  }

  lemma UtilsBlockShape(seg: Segment, speaker: string)
    requires speaker in {InitialSpeaker, "User", "Assistant"}
    ensures UtilsBlock(seg, speaker) == RowHtml(UtilsRow(seg, speaker))
    ensures '"' !in ClassName(speaker) && '<' !in speaker && '<' !in SecondsToTimestamp(seg.start)
  {
    LabelsAreTight(speaker);
    TimestampIsTight(Trunc(seg.start));
    TimestampAvoids(Trunc(seg.start), '<');
    SpeakerCollapse(ClassName(speaker), SecondsToTimestamp(seg.start), speaker, Strip(seg.text));
  }

  /**
   * When no text holds a `<`, the page lists every segment, in order, with
   * its sticky label, the class that goes with it, its timestamp and its
   * stripped text as given.
   */
  lemma UtilsReadsBack(segments: seq<Segment>)
    requires forall k :: 0 <= k < |segments| ==> '<' !in segments[k].text
    ensures ReadSpeakers(Concat(UtilsBlocks(segments))) == Some(UtilsRows(segments))
  {
    var blocks := UtilsBlocks(segments);
    var rows := UtilsRows(segments);
    var labels := Speakers(SegmentCues(segments));
    forall k | 0 <= k < |segments|
      ensures Delimited(rows[k]) && blocks[k] == RowHtml(rows[k])
    {
      LabelsKnown(InitialSpeaker, SegmentCues(segments), k);
      UtilsBlocksLabels(segments, k);
      UtilsBlockShape(segments[k], labels[k]);
      StripKeepsOut(segments[k].text, '<');
      CollapseKeepsOut(Strip(segments[k].text), '<');
    }
    ReadSpeakersRoundTrip(blocks, rows);
  }

  /**
   * The text goes in unescaped: a segment whose text holds a `<` is read as
   * markup, so no reader recovers the rows with the texts as given.
   */
  lemma UnescapedTextIsMarkup(segments: seq<Segment>, k: nat)
    requires k < |segments| && '<' in Collapse(Strip(segments[k].text))
    ensures ReadSpeakers(Concat(UtilsBlocks(segments))) != Some(UtilsRows(segments))
  {
    var h := Concat(UtilsBlocks(segments));
    ReadSpeakersDelimited(h);
    assert !Delimited(UtilsRows(segments)[k]);
  }

  /** The page is one line: every block is collapsed. */
  lemma UtilsHasNoNewline(segments: seq<Segment>)
    ensures '\n' !in Concat(UtilsBlocks(segments))
  {
    var blocks := UtilsBlocks(segments);
    var labels := Speakers(SegmentCues(segments));
    forall k | 0 <= k < |blocks|
      ensures '\n' !in blocks[k]
    {
      UtilsBlocksLabels(segments, k);
      CollapseHasNoNewline(SpeakerTemplate(ClassName(labels[k]), SecondsToTimestamp(segments[k].start), labels[k], Strip(segments[k].text)));
    }
    ConcatKeepsOut(blocks, '\n');
  }
}
