/**
 * `services/transcript_service.py`: removing leading timestamps from a
 * pasted transcript, and rendering a transcript (raw text or Whisper
 * segments) as HTML blocks, with or without a Customer/Agent label.
 */
module TranscriptService {
  import opened Wrappers
  import opened Text
  import opened Html
  import opened Timestamps
  import opened TimestampPattern
  import opened Blocks
  import opened Segments

  // ---------------------------------------------------------------- remove_timestamps_from_text

  /** What one line contributes: the cleaned line when it is not blank. */
  function KeptLine(line: string): seq<string> {
    var c := StripLeadingTimestamp(line);
    if Strip(c) != [] then [c] else []
  }

  /** The cleaned, non-blank lines, in order. */
  function KeptLines(lines: seq<string>): seq<string> {
    if lines == [] then []
    else KeptLines(lines[..|lines| - 1]) + KeptLine(lines[|lines| - 1])
  }

  /** `x` is one of the input lines with its leading timestamp removed. */
  predicate CleanedFrom(lines: seq<string>, x: string) {
    exists i :: 0 <= i < |lines| && x == StripLeadingTimestamp(lines[i])
  }

  /** Every kept line is a cleaned input line and is not blank. */
  lemma {:induction false} KeptLinesSound(lines: seq<string>)
    ensures forall j :: 0 <= j < |KeptLines(lines)| ==> Strip(KeptLines(lines)[j]) != []
    ensures forall j :: 0 <= j < |KeptLines(lines)| ==> CleanedFrom(lines, KeptLines(lines)[j])
    decreases |lines|
  {
    if lines != [] {
      var n := |lines| - 1;
      var init := lines[..n];
      KeptLinesSound(init);
      var k := KeptLines(lines);
      var ki := KeptLines(init);
      forall j | 0 <= j < |k|
        ensures Strip(k[j]) != []
        ensures CleanedFrom(lines, k[j])
      {
        if j < |ki| {
          assert k[j] == ki[j];
          assert CleanedFrom(init, ki[j]);
          var i :| 0 <= i < |init| && ki[j] == StripLeadingTimestamp(init[i]);
          assert init[i] == lines[i];
          assert k[j] == StripLeadingTimestamp(lines[i]);
        } else {
          assert k[j] == StripLeadingTimestamp(lines[n]);
        }
      }
    }
  }

  /** Every cleaned input line that is not blank is kept. */
  lemma {:induction false} KeptLinesComplete(lines: seq<string>)
    ensures forall i :: 0 <= i < |lines| && Strip(StripLeadingTimestamp(lines[i])) != [] ==>
      StripLeadingTimestamp(lines[i]) in KeptLines(lines)
    decreases |lines|
  {
    if lines != [] {
      var n := |lines| - 1;
      var init := lines[..n];
      KeptLinesComplete(init);
      var k := KeptLines(lines);
      var ki := KeptLines(init);
      assert k == ki + KeptLine(lines[n]);
      forall i | 0 <= i < |lines| && Strip(StripLeadingTimestamp(lines[i])) != []
        ensures StripLeadingTimestamp(lines[i]) in k
      {
        var c := StripLeadingTimestamp(lines[i]);
        if i < n {
          assert init[i] == lines[i];
          assert c in ki;
        } else {
          assert KeptLine(lines[n]) == [c];
        }
      }
    }
  }

  lemma KeptLinesStep(lines: seq<string>, i: nat)
    requires i < |lines|
    ensures KeptLines(lines[..i + 1]) == KeptLines(lines[..i]) + KeptLine(lines[i])
  {
    assert lines[..i + 1][..i] == lines[..i];
  }

  method RemoveTimestampsFromText(transcript: string) returns (r: string)
    ensures r == Join("\n", KeptLines(SplitLines(transcript)))
  {
    var lines := SplitLines(transcript);
    var cleanedLines: seq<string> := [];
    var i := 0;
    while i < |lines|
      invariant 0 <= i <= |lines|
      invariant cleanedLines == KeptLines(lines[..i])
    {
      var cleaned := StripLeadingTimestamp(lines[i]);
      KeptLinesStep(lines, i);
      if Strip(cleaned) != [] {
        cleanedLines := cleanedLines + [cleaned];
      }
      i := i + 1;
    }
    assert lines[..|lines|] == lines;
    r := Join("\n", cleanedLines);
  }

  /** A line `"<timestamp> <text>"` is cleaned down to its text. */
  lemma StampedLineCleaned(ts: string, text: string)
    requires IsTimestamp(ts) && text != [] && !IsSpace(text[0])
    ensures StripLeadingTimestamp(ts + " " + text) == text
  {
    var line := ts + " " + text;
    var k := |ts|;
    TimestampChars(ts);
    assert line[0] == ts[0];
    assert SpaceEnd(line, 0) == 0;
    assert line[0..k] == ts;
    assert line[k] == ' ';
    FirstEndAtSpace(line, 0, k);
    assert line[k + 1] == text[0];
    assert SpaceEnd(line, k + 1) == k + 1;
    assert line[k + 1..] == text;
  }

  function Stamp(p: (string, string)): string {
    p.0 + " " + p.1
  }

  /** The lines `"<timestamp> <text>"` for a list of (timestamp, text) pairs. */
  function StampedText(pairs: seq<(string, string)>): (r: seq<string>)
    ensures |r| == |pairs|
  {
    if pairs == [] then [] else StampedText(pairs[..|pairs| - 1]) + [Stamp(pairs[|pairs| - 1])]
  }

  function Texts(pairs: seq<(string, string)>): (r: seq<string>)
    ensures |r| == |pairs|
  {
    if pairs == [] then [] else Texts(pairs[..|pairs| - 1]) + [pairs[|pairs| - 1].1]
  }

  /** Lines that `remove_timestamps_from_text` turns into their texts. */
  predicate StampedLines(pairs: seq<(string, string)>) {
    forall i :: 0 <= i < |pairs| ==>
      IsTimestamp(pairs[i].0) && pairs[i].1 != [] && !IsSpace(pairs[i].1[0]) && '\n' !in pairs[i].1
  }

  lemma StripOfNonSpaceStart(t: string)
    requires t != [] && !IsSpace(t[0])
    ensures Strip(t) != []
  {
    LStripNonSpaceStart(t);
    RStripPrefix(t);
  }

  lemma {:induction false} KeptStampedLines(pairs: seq<(string, string)>)
    requires StampedLines(pairs)
    ensures KeptLines(StampedText(pairs)) == Texts(pairs)
    decreases |pairs|
  {
    if pairs != [] {
      var n := |pairs| - 1;
      var init := pairs[..n];
      assert StampedLines(init) by {
        forall i | 0 <= i < |init| ensures init[i] == pairs[i] { }
      }
      KeptStampedLines(init);
      var t := pairs[n].1;
      StampedLineCleaned(pairs[n].0, t);
      StripOfNonSpaceStart(t);
      var lines := StampedText(pairs);
      assert lines[..n] == StampedText(init);
      assert KeptLine(lines[n]) == [t];
    }
  }

  lemma {:induction false} StampsHaveNoNewline(pairs: seq<(string, string)>)
    requires StampedLines(pairs)
    ensures forall i :: 0 <= i < |pairs| ==> '\n' !in StampedText(pairs)[i]
    decreases |pairs|
  {
    if pairs != [] {
      var n := |pairs| - 1;
      var init := pairs[..n];
      assert StampedLines(init) by {
        forall i | 0 <= i < |init| ensures init[i] == pairs[i] { }
      }
      StampsHaveNoNewline(init);
      TimestampChars(pairs[n].0);
      var lines := StampedText(pairs);
      forall i | 0 <= i < |pairs| ensures '\n' !in lines[i] {
        if i < n {
          assert lines[i] == StampedText(init)[i];
        }
      }
    }
  }

  /**
   * A transcript written as `"<timestamp> <text>"` lines comes back as the
   * texts alone, one per line.
   */
  lemma RemoveTimestampsFromStampedText(pairs: seq<(string, string)>)
    requires pairs != [] && StampedLines(pairs)
    ensures Join("\n", KeptLines(SplitLines(Join("\n", StampedText(pairs))))) == Join("\n", Texts(pairs))
  {
    var lines := StampedText(pairs);
    StampsHaveNoNewline(pairs);
    SplitJoin(lines, '\n');
    assert lines[|lines| - 1] != [];
    KeptStampedLines(pairs);
  }

  // ---------------------------------------------------------------- format_transcript_without_speaker

  /** One collapsed time-and-text block for a Whisper segment. */
  function SegmentBlock(seg: Segment): string {
    Collapse(TimeTextTemplate(SecondsToTimestamp(seg.start), Escape(Strip(seg.text))))
  }

  function SegmentBlocks(segments: seq<Segment>): (r: seq<string>)
    ensures |r| == |segments|
    ensures forall i :: 0 <= i < |segments| ==> r[i] == SegmentBlock(segments[i])
  {
    MapStrings(SegmentBlock, segments)
  }

  method FormatTranscriptWithoutSpeaker(segments: seq<Segment>) returns (html: string)
    ensures html == Concat(SegmentBlocks(segments))
  {
    var transcriptLines: seq<string> := [];
    var i := 0;
    while i < |segments|
      invariant 0 <= i <= |segments|
      invariant transcriptLines == SegmentBlocks(segments[..i])
    {
      var text := Strip(segments[i].text);
      var startTime := SecondsToTimestamp(segments[i].start);
      var escapedText := Escape(text);
      var cleanHtml := Collapse(TimeTextTemplate(startTime, escapedText));
      MapStringsStep(SegmentBlock, segments, i);
      transcriptLines := transcriptLines + [cleanHtml];
      i := i + 1;
    }
    assert segments[..|segments|] == segments;
    html := Concat(transcriptLines);
  }

  /** What a reader of the page sees for a segment's text: the escaped, stripped text with its line breaks folded away. */
  function ShownText(text: string): string {
    Collapse(Escape(Strip(text)))
  }

  /** The escaped text has no `<` and its collapse is the escaped text itself when it is one line. */
  lemma ShownTextFacts(text: string)
    ensures '<' !in ShownText(text) && '"' !in ShownText(text)
    ensures NoSpaceAtEnds(Escape(Strip(text)))
    ensures '\n' !in text ==> Unescape(ShownText(text)) == Strip(text)
  {
    var e := Escape(Strip(text));
    EscapeHasNoMarkup(Strip(text));
    CollapseKeepsOut(e, '<');
    CollapseKeepsOut(e, '"');
    EscapeKeepsStripped(Strip(text));
    if '\n' !in text {
      StripKeepsOut(text, '\n');
      EscapeKeepsOutNewline(Strip(text));
      CollapseFlat(e);
      UnescapeEscape(Strip(text));
    }
  }

  lemma SegmentBlockShape(seg: Segment)
    ensures SegmentBlock(seg) == TimeTextHtml(SecondsToTimestamp(seg.start), ShownText(seg.text))
    ensures '<' !in SecondsToTimestamp(seg.start) && '<' !in ShownText(seg.text)
  {
    var ts := SecondsToTimestamp(seg.start);
    TimestampIsTight(Trunc(seg.start));
    TimestampAvoids(Trunc(seg.start), '<');
    ShownTextFacts(seg.text);
    TimeTextCollapse(ts, Escape(Strip(seg.text)));
  }

  /** The (timestamp, text) pairs a reader recovers from the page. */
  function SegmentRows(segments: seq<Segment>): (r: seq<(string, string)>)
    ensures |r| == |segments|
    ensures forall i :: 0 <= i < |segments| ==>
      r[i] == (SecondsToTimestamp(segments[i].start), ShownText(segments[i].text))
  {
    seq(|segments|, i requires 0 <= i < |segments| =>
      (SecondsToTimestamp(segments[i].start), ShownText(segments[i].text)))
  }

  /**
   * The page lists every segment, in order, with its timestamp and its
   * stripped, escaped text; a one-line text unescapes back to the stripped text.
   */
  lemma WithoutSpeakerReadsBack(segments: seq<Segment>)
    ensures ReadTimeTexts(Concat(SegmentBlocks(segments))) == Some(SegmentRows(segments))
  {
    var blocks := SegmentBlocks(segments);
    var rows := SegmentRows(segments);
    forall i | 0 <= i < |segments|
      ensures '<' !in rows[i].0 && '<' !in rows[i].1 && blocks[i] == TimeTextHtml(rows[i].0, rows[i].1)
    {
      SegmentBlockShape(segments[i]);
    }
    ReadTimeTextsRoundTrip(blocks, rows);
  }

  // ---------------------------------------------------------------- format_transcript_without_speaker_new

  function PairBlock(p: (string, string)): string {
    Collapse(TimeTextTemplate(p.0, Escape(Strip(p.1))))
  }

  function PairBlocks(pairs: seq<(string, string)>): (r: seq<string>)
    ensures |r| == |pairs|
    ensures forall i :: 0 <= i < |pairs| ==> r[i] == PairBlock(pairs[i])
  {
    MapStrings(PairBlock, pairs)
  }

  method FormatTranscriptWithoutSpeakerNew(transcript: string) returns (html: string)
    ensures html == Concat(PairBlocks(FindTimestampedTexts(transcript)))
  {
    var transcriptLines: seq<string> := [];
    var segments := FindTimestampedTexts(transcript);
    var i := 0;
    while i < |segments|
      invariant 0 <= i <= |segments|
      invariant transcriptLines == PairBlocks(segments[..i])
    {
      var (timestamp, text) := segments[i];
      var escapedText := Escape(Strip(text));
      var cleanHtml := Collapse(TimeTextTemplate(timestamp, escapedText));
      MapStringsStep(PairBlock, segments, i);
      transcriptLines := transcriptLines + [cleanHtml];
      i := i + 1;
    }
    assert segments[..|segments|] == segments;
    html := Concat(transcriptLines);
  }

  function ShownPairs(pairs: seq<(string, string)>): (r: seq<(string, string)>)
    ensures |r| == |pairs|
    ensures forall i :: 0 <= i < |pairs| ==> r[i] == (pairs[i].0, ShownText(pairs[i].1))
  {
    seq(|pairs|, i requires 0 <= i < |pairs| => (pairs[i].0, ShownText(pairs[i].1)))
  }

  /** A block for a pair found by the regular expression: the timestamp is a bare `[H:]MM:SS`. */
  lemma PairBlockShape(p: (string, string))
    requires IsTimestamp(p.0)
    ensures PairBlock(p) == TimeTextHtml(p.0, ShownText(p.1))
    ensures '<' !in p.0 && '<' !in ShownText(p.1)
  {
    TimestampChars(p.0);
    ShownTextFacts(p.1);
    TimeTextCollapse(p.0, Escape(Strip(p.1)));
  }

  /** The page lists every (timestamp, text) pair the regular expression finds, in order. */
  lemma WithoutSpeakerNewReadsBack(transcript: string)
    ensures ReadTimeTexts(Concat(PairBlocks(FindTimestampedTexts(transcript))))
         == Some(ShownPairs(FindTimestampedTexts(transcript)))
  {
    var pairs := FindTimestampedTexts(transcript);
    var blocks := PairBlocks(pairs);
    var rows := ShownPairs(pairs);
    forall i | 0 <= i < |pairs|
      ensures '<' !in rows[i].0 && '<' !in rows[i].1 && blocks[i] == TimeTextHtml(rows[i].0, rows[i].1)
    {
      PairBlockShape(pairs[i]);
    }
    ReadTimeTextsRoundTrip(blocks, rows);
  }

  /**
   * A transcript written as "<timestamp> <text> ..." comes out as exactly
   * those pairs, each text stripped and escaped.
   */
  lemma WithoutSpeakerNewRoundTrip(pairs: seq<(string, string)>)
    requires Readable(pairs)
    ensures ReadTimeTexts(Concat(PairBlocks(FindTimestampedTexts(RenderPairs(pairs))))) == Some(ShownPairs(pairs))
  {
    FindTimestampedTextsRoundTrip(pairs);
    WithoutSpeakerNewReadsBack(RenderPairs(pairs));
  }

  // ---------------------------------------------------------------- format_transcript_with_speakers

  const AgentCues: seq<string> := [
    "thank you for calling", "how may i", "can i have", "let me", "i can help", "your order is",
    "this is", "have a nice day", "you're welcome", "we can process", "please hold",
    "i'm the doctor", "you're speaking with", "how can i assist", "what can i do for you",
    "we're open", "i will check", "you can send it", "visiting hours", "prescription is ready",
    "i can check", "we look forward", "have a great day", "mailing address", "insurance coverage"
  ]

  const CustomerCues: seq<string> := [
    "my name is", "i'd like", "sure", "yes", "okay", "that's fine", "i want", "i need",
    "thank you", "i called", "i'm calling", "i have a question", "me llamo", "necesito",
    "mi abuela", "yo habl\U{00E9}", "fui a llevar", "tengo el formulario", "lo fui a llevar",
    "i was wondering", "i was in the hospital", "my number is", "i take", "my doctor said",
    "my birth date is", "i need help", "i have bills", "can i", "do you offer", "my address is"
  ]

  /** `any(phrase in s for phrase in cues)`. */
  function AnyCue(s: string, cues: seq<string>): (r: bool)
    ensures r <==> exists i :: 0 <= i < |cues| && Contains(s, cues[i])
  {
    if cues == [] then false
    else Contains(s, cues[0]) || AnyCue(s, cues[1..])
  }

  /**
   * The label for a lower-cased, stripped text. A customer cue decides
   * "Customer"; everything else, with or without an agent cue, is "Agent".
   */
  function SpeakerFor(lower: string): (speaker: string)
    ensures speaker == "Customer" <==> exists i :: 0 <= i < |CustomerCues| && Contains(lower, CustomerCues[i])
    ensures speaker == "Customer" || speaker == "Agent"
  {
    if AnyCue(lower, CustomerCues) then "Customer"
    else if AnyCue(lower, AgentCues) then "Agent"
    else "Agent"
  }

  function ClassName(speaker: string): (cls: string)
    ensures cls == "customerClass" <==> speaker == "Customer"
    ensures cls == "agentClass" || cls == "customerClass"
  {
    if speaker == "Agent" then "agentClass"
    else if speaker == "Customer" then "customerClass"
    else "agentClass"
  }

  /**
   * The agent greeting "thank you for calling" is labelled "Customer": it
   * contains the customer cue "thank you", and customer cues are tried first.
   */
  lemma GreetingIsCustomer(lower: string)
    requires Contains(lower, "thank you for calling")
    ensures SpeakerFor(lower) == "Customer"
  {
    assert OccursAt("thank you for calling", "thank you", 0);
    ContainsTransitive(lower, "thank you for calling", "thank you");
    assert CustomerCues[8] == "thank you";
  }

  /** Likewise the agent cue "can i have" contains the customer cue "can i". */
  lemma CanIHaveIsCustomer(lower: string)
    requires Contains(lower, "can i have")
    ensures SpeakerFor(lower) == "Customer"
  {
    assert OccursAt("can i have", "can i", 0);
    ContainsTransitive(lower, "can i have", "can i");
    assert CustomerCues[27] == "can i";
  }

  lemma LabelsAreTight(speaker: string)
    requires speaker == "Customer" || speaker == "Agent"
    ensures '\n' !in speaker && '<' !in speaker
    ensures '\n' !in ClassName(speaker) && '"' !in ClassName(speaker)
  {
  }

  /** The row a reader recovers from a segment's speaker block. */
  function SpeakerRowOf(seg: Segment): SpeakerRow {
    var speaker := SpeakerFor(Lower(Strip(seg.text)));
    SpeakerRow(ClassName(speaker), SecondsToTimestamp(seg.start), speaker, ShownText(seg.text))
  }

  function SpeakerBlock(seg: Segment): string {
    var text := Strip(seg.text);
    var speaker := SpeakerFor(Lower(text));
    Collapse(SpeakerTemplate(ClassName(speaker), SecondsToTimestamp(seg.start), speaker, Escape(text)))
  }

  function SpeakerBlocks(segments: seq<Segment>): (r: seq<string>)
    ensures |r| == |segments|
    ensures forall i :: 0 <= i < |segments| ==> r[i] == SpeakerBlock(segments[i])
  {
    MapStrings(SpeakerBlock, segments)
  }

  method FormatTranscriptWithSpeakers(segments: seq<Segment>) returns (html: string)
    ensures html == Concat(SpeakerBlocks(segments))
  {
    var transcriptLines: seq<string> := [];
    var i := 0;
    while i < |segments|
      invariant 0 <= i <= |segments|
      invariant transcriptLines == SpeakerBlocks(segments[..i])
    {
      var text := Strip(segments[i].text);
      var lower := Lower(text);
      var startTime := SecondsToTimestamp(segments[i].start);
      var speaker := SpeakerFor(lower);
      var className := ClassName(speaker);
      var escapedText := Escape(text);
      var cleanHtml := Collapse(SpeakerTemplate(className, startTime, speaker, escapedText));
      MapStringsStep(SpeakerBlock, segments, i);
      transcriptLines := transcriptLines + [cleanHtml];
      i := i + 1;
    }
    assert segments[..|segments|] == segments;
    html := Concat(transcriptLines);
  }

  lemma SpeakerBlockShape(seg: Segment)
    ensures Delimited(SpeakerRowOf(seg)) && SpeakerBlock(seg) == RowHtml(SpeakerRowOf(seg))
  {
    var row := SpeakerRowOf(seg);
    LabelsAreTight(row.speaker);
    TimestampIsTight(Trunc(seg.start));
    TimestampAvoids(Trunc(seg.start), '<');
    ShownTextFacts(seg.text);
    SpeakerCollapse(row.cls, row.ts, row.speaker, Escape(Strip(seg.text)));
  }

  function SpeakerRows(segments: seq<Segment>): (r: seq<SpeakerRow>)
    ensures |r| == |segments|
    ensures forall i :: 0 <= i < |segments| ==> r[i] == SpeakerRowOf(segments[i])
  {
    seq(|segments|, i requires 0 <= i < |segments| => SpeakerRowOf(segments[i]))
  }

  /**
   * The page lists every segment, in order, with its class, timestamp,
   * label and escaped text; the class is "customerClass" exactly for the
   * "Customer" label.
   */
  lemma WithSpeakersReadsBack(segments: seq<Segment>)
    ensures ReadSpeakers(Concat(SpeakerBlocks(segments))) == Some(SpeakerRows(segments))
  {
    var blocks := SpeakerBlocks(segments);
    var rows := SpeakerRows(segments);
    forall i | 0 <= i < |segments|
      ensures Delimited(rows[i]) && blocks[i] == RowHtml(rows[i])
    {
      SpeakerBlockShape(segments[i]);
    }
    ReadSpeakersRoundTrip(blocks, rows);
  }

  // ---------------------------------------------------------------- smart_format_transcript

  /** The runtime shapes `smart_format_transcript` tells apart. */
  datatype TranscriptInput =
    | RawText(text: string)
    | SegmentList(segments: seq<Segment>)
    | OtherValue

  const UnsupportedFormat: string := "Unsupported transcript format"

  method SmartFormatTranscript(transcript: TranscriptInput) returns (r: Result<string, string>)
    ensures transcript.RawText? ==> r == Ok(Concat(PairBlocks(FindTimestampedTexts(transcript.text))))
    ensures transcript.SegmentList? ==> r == Ok(Concat(SegmentBlocks(transcript.segments)))
    ensures transcript.OtherValue? <==> r == Err(UnsupportedFormat)
  {
    match transcript
    case RawText(text) =>
      var html := FormatTranscriptWithoutSpeakerNew(text);
      r := Ok(html);
    case SegmentList(segments) =>
      var html := FormatTranscriptWithoutSpeaker(segments);
      r := Ok(html);
    case OtherValue =>
      r := Err(UnsupportedFormat);
  }

  // ---------------------------------------------------------------- one-line pages

  /** Every formatter's page is one line: each block is collapsed. */
  lemma FormattedHasNoNewline(segments: seq<Segment>, transcript: string)
    ensures '\n' !in Concat(SegmentBlocks(segments))
    ensures '\n' !in Concat(PairBlocks(FindTimestampedTexts(transcript)))
    ensures '\n' !in Concat(SpeakerBlocks(segments))
  {
    var a := SegmentBlocks(segments);
    forall k | 0 <= k < |a| ensures '\n' !in a[k] {
      CollapseHasNoNewline(TimeTextTemplate(SecondsToTimestamp(segments[k].start), Escape(Strip(segments[k].text))));
    }
    ConcatKeepsOut(a, '\n');
    var pairs := FindTimestampedTexts(transcript);
    var b := PairBlocks(pairs);
    forall k | 0 <= k < |b| ensures '\n' !in b[k] {
      CollapseHasNoNewline(TimeTextTemplate(pairs[k].0, Escape(Strip(pairs[k].1))));
    }
    ConcatKeepsOut(b, '\n');
    var c := SpeakerBlocks(segments);
    forall k | 0 <= k < |c| ensures '\n' !in c[k] {
      var text := Strip(segments[k].text);
      var speaker := SpeakerFor(Lower(text));
      CollapseHasNoNewline(SpeakerTemplate(ClassName(speaker), SecondsToTimestamp(segments[k].start), speaker, Escape(text)));
    }
    ConcatKeepsOut(c, '\n');
  }
}
