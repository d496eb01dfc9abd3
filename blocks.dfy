/**
 * The HTML blocks the transcript formatters emit, one per segment. Each is
 * written as an indented triple-quoted f-string and then collapsed line by
 * line (`Html.Collapse`). Two templates occur: a timestamp with text, and a
 * timestamp, speaker label and text inside a `div` whose class names the
 * speaker's role.
 */
module Blocks {
  import opened Wrappers
  import opened Text
  import opened Html

  const Indent8: string := "        "
  const Indent12: string := "            "

  const DivAgent: string := "<div class=\"agentClass\">"
  const DivOpen: string := "<div class=\""
  const TagEnd: string := "\">"
  const TimeOpen: string := "<span class=\"timeClass\">"
  const TextOpenMs1: string := "<span class=\"ms-1 textClass\">"
  const SpeakerOpen: string := "<span class=\"speakerClass\">"
  const TextOpen: string := "<span class=\"textClass\">"
  const SpanClose: string := "</span>"
  const DivClose: string := "</div>"

  /** The lines of the template of `format_transcript_without_speaker` and its `_new` variant. */
  function TimeTextLines(ts: string, text: string): seq<string> {
    [
      "",
      Indent8 + DivAgent,
      Indent12 + TimeOpen + ts + SpanClose,
      Indent12 + TextOpenMs1 + text + SpanClose,
      Indent8 + DivClose,
      Indent8]
  }

  /** The lines of the template with a speaker label, shared by the speaker-aware formatters. */
  function SpeakerLines(cls: string, ts: string, speaker: string, text: string): seq<string> {
    [
      "",
      Indent8 + DivOpen + cls + TagEnd,
      Indent12 + TimeOpen + ts + SpanClose,
      Indent12 + SpeakerOpen + speaker + SpanClose,
      Indent12 + TextOpen + text + SpanClose,
      Indent8 + DivClose,
      Indent8]
  }

  function TimeTextTemplate(ts: string, text: string): string {
    Join("\n", TimeTextLines(ts, text))
  }

  function SpeakerTemplate(cls: string, ts: string, speaker: string, text: string): string {
    Join("\n", SpeakerLines(cls, ts, speaker, text))
  }

  /** The collapsed time-and-text block. */
  function TimeTextHtml(ts: string, text: string): string {
    DivAgent + TimeOpen + ts + SpanClose + TextOpenMs1 + text + SpanClose + DivClose
  }

  /** The collapsed speaker block. */
  function SpeakerHtml(cls: string, ts: string, speaker: string, text: string): string {
    DivOpen + cls + TagEnd + TimeOpen + ts + SpanClose + SpeakerOpen + speaker + SpanClose
      + TextOpen + text + SpanClose + DivClose
  }

  lemma IndentsAreSpace()
    ensures AllSpace(Indent8) && '\n' !in Indent8
    ensures AllSpace(Indent12) && '\n' !in Indent12
  {
  }

  lemma MarkupIsTight()
    ensures NoSpaceAtEnds(DivAgent) && '\n' !in DivAgent && DivAgent != []
    ensures NoSpaceAtEnds(DivOpen) && '\n' !in DivOpen && DivOpen != []
    ensures NoSpaceAtEnds(TagEnd) && '\n' !in TagEnd && TagEnd != []
    ensures NoSpaceAtEnds(TimeOpen) && '\n' !in TimeOpen && TimeOpen != []
    ensures NoSpaceAtEnds(TextOpenMs1) && '\n' !in TextOpenMs1 && TextOpenMs1 != []
    ensures NoSpaceAtEnds(SpeakerOpen) && '\n' !in SpeakerOpen && SpeakerOpen != []
    ensures NoSpaceAtEnds(TextOpen) && '\n' !in TextOpen && TextOpen != []
    ensures NoSpaceAtEnds(SpanClose) && '\n' !in SpanClose && SpanClose != []
    ensures NoSpaceAtEnds(DivClose) && '\n' !in DivClose && DivClose != []
  {
  }

  lemma Assemble6(a: string, b: string, c: string, d: string, e: string, f: string, g: string)
    ensures [] + (a + ((b + c + d) + ((e + f + d) + (g + [])))) == a + b + c + d + e + f + d + g
  {
  }

  lemma Assemble7(a: string, b: string, c: string, d: string, e: string, f: string, g: string,
                  h: string, i: string, j: string, k: string)
    ensures [] + ((a + b + c) + ((d + e + f) + ((g + h + f) + ((i + j + f) + (k + [])))))
      == a + b + c + d + e + f + g + h + f + i + j + f + k
  {
  }

  lemma BlankLinesCollapse()
    ensures Collapse("") == [] && Collapse(Indent8) == []
  {
    IndentsAreSpace();
    CollapseBlank("");
    CollapseBlank(Indent8);
  }

  lemma TagLinesCollapse()
    ensures Collapse(Indent8 + DivAgent) == DivAgent && Collapse(Indent8 + DivClose) == DivClose
  {
    IndentsAreSpace();
    MarkupIsTight();
    CollapseTag(Indent8, DivAgent);
    CollapseTag(Indent8, DivClose);
  }

  lemma VerbatimLineCollapse(indent: string, open: string, t: string)
    requires indent == Indent8 || indent == Indent12
    requires open in {DivOpen, TimeOpen, SpeakerOpen} && '\n' !in t
    ensures Collapse(indent + open + t + (if open == DivOpen then TagEnd else SpanClose))
      == open + t + (if open == DivOpen then TagEnd else SpanClose)
  {
    IndentsAreSpace();
    MarkupIsTight();
    CollapseLineVerbatim(indent, open, t, if open == DivOpen then TagEnd else SpanClose);
  }

  lemma TextLineCollapse(open: string, text: string)
    requires open in {TextOpen, TextOpenMs1} && NoSpaceAtEnds(text)
    ensures Collapse(Indent12 + open + text + SpanClose) == open + Collapse(text) + SpanClose
  {
    IndentsAreSpace();
    MarkupIsTight();
    CollapseLine(Indent12, open, text, SpanClose);
  }

  /**
   * Collapsing the time-and-text template leaves exactly the markup, the
   * timestamp and the collapsed text, whose inner line breaks are removed
   * with the whitespace around them.
   */
  lemma TimeTextCollapse(ts: string, text: string)
    requires '\n' !in ts && NoSpaceAtEnds(text)
    ensures Collapse(TimeTextTemplate(ts, text)) == TimeTextHtml(ts, Collapse(text))
  {
    var l := TimeTextLines(ts, text);
    CollapseJoin6(l[0], l[1], l[2], l[3], l[4], l[5]);
    assert l == [l[0], l[1], l[2], l[3], l[4], l[5]];
    BlankLinesCollapse();
    TagLinesCollapse();
    VerbatimLineCollapse(Indent12, TimeOpen, ts);
    TextLineCollapse(TextOpenMs1, text);
    Assemble6(DivAgent, TimeOpen, ts, SpanClose, TextOpenMs1, Collapse(text), DivClose);
  }

  lemma SpeakerCollapse(cls: string, ts: string, speaker: string, text: string)
    requires '\n' !in cls && '\n' !in ts && '\n' !in speaker && NoSpaceAtEnds(text)
    ensures Collapse(SpeakerTemplate(cls, ts, speaker, text)) == SpeakerHtml(cls, ts, speaker, Collapse(text))
  {
    var l := SpeakerLines(cls, ts, speaker, text);
    CollapseJoin7(l[0], l[1], l[2], l[3], l[4], l[5], l[6]);
    assert l == [l[0], l[1], l[2], l[3], l[4], l[5], l[6]];
    BlankLinesCollapse();
    TagLinesCollapse();
    VerbatimLineCollapse(Indent8, DivOpen, cls);
    VerbatimLineCollapse(Indent12, TimeOpen, ts);
    VerbatimLineCollapse(Indent12, SpeakerOpen, speaker);
    TextLineCollapse(TextOpen, text);
    Assemble7(DivOpen, cls, TagEnd, TimeOpen, ts, SpanClose, SpeakerOpen, speaker, TextOpen, Collapse(text), DivClose);
  }

  // ---------------------------------------------------------------- reading blocks back

  /** The fields of a speaker block. */
  datatype SpeakerRow = SpeakerRow(cls: string, ts: string, speaker: string, text: string)

  /** Reads one time-and-text block off the front of `h`; fields run up to the next `<`. */
  function ReadTimeText(h: string): (r: Option<(string, string, string)>)
    ensures r.Some? ==> |r.value.2| < |h|
  {
    match AfterPrefix(DivAgent + TimeOpen, h)
    case None => None
    case Some(r1) =>
      var (ts, r2) := TakeUntil(r1, '<');
      match AfterPrefix(SpanClose + TextOpenMs1, r2)
      case None => None
      case Some(r3) =>
        var (text, r4) := TakeUntil(r3, '<');
        match AfterPrefix(SpanClose + DivClose, r4)
        case None => None
        case Some(rest) => Some((ts, text, rest))
  }

  /** Reads a whole transcript of time-and-text blocks. */
  function ReadTimeTexts(h: string): Option<seq<(string, string)>>
    decreases |h|
  {
    if h == [] then Some([])
    else match ReadTimeText(h)
      case None => None
      case Some((ts, text, rest)) =>
        match ReadTimeTexts(rest)
        case None => None
        case Some(more) => Some([(ts, text)] + more)
  }

  lemma Regroup7(a: string, b: string, c: string, d: string, e: string, f: string, g: string, rest: string)
    ensures a + b + c + d + e + f + d + g + rest == (a + b) + (c + ((d + e) + (f + ((d + g) + rest))))
  {
  }

  lemma ReadTimeTextBlock(ts: string, text: string, rest: string)
    requires '<' !in ts && '<' !in text
    ensures ReadTimeText(TimeTextHtml(ts, text) + rest) == Some((ts, text, rest))
  {
    var h := TimeTextHtml(ts, text) + rest;
    var tail2 := (SpanClose + DivClose) + rest;
    var tail1 := (SpanClose + TextOpenMs1) + (text + tail2);
    Regroup7(DivAgent, TimeOpen, ts, SpanClose, TextOpenMs1, text, DivClose, rest);
    assert h == (DivAgent + TimeOpen) + (ts + tail1);
    AfterPrefixConcat(DivAgent + TimeOpen, ts + tail1);
    TakeUntilConcat(ts, tail1, '<');
    AfterPrefixConcat(SpanClose + TextOpenMs1, text + tail2);
    TakeUntilConcat(text, tail2, '<');
    AfterPrefixConcat(SpanClose + DivClose, rest);
  }

  /** A transcript of time-and-text blocks reads back into its timestamps and texts, in order. */
  lemma {:induction false} ReadTimeTextsRoundTrip(blocks: seq<string>, pairs: seq<(string, string)>)
    requires |blocks| == |pairs|
    requires forall i :: 0 <= i < |pairs| ==>
      '<' !in pairs[i].0 && '<' !in pairs[i].1 && blocks[i] == TimeTextHtml(pairs[i].0, pairs[i].1)
    ensures ReadTimeTexts(Concat(blocks)) == Some(pairs)
    decreases |blocks|
  {
    if blocks != [] {
      ReadTimeTextBlock(pairs[0].0, pairs[0].1, Concat(blocks[1..]));
      ReadTimeTextsRoundTrip(blocks[1..], pairs[1..]);
      assert [pairs[0]] + pairs[1..] == pairs;
    }
  }

  /** Reads one speaker block off the front of `h`; the class runs up to `"`, the other fields up to `<`. */
  function ReadSpeaker(h: string): (r: Option<(SpeakerRow, string)>)
    ensures r.Some? ==> |r.value.1| < |h| && Delimited(r.value.0)
  {
    match AfterPrefix(DivOpen, h)
    case None => None
    case Some(r1) =>
      var (cls, r2) := TakeUntil(r1, '"');
      match AfterPrefix(TagEnd + TimeOpen, r2)
      case None => None
      case Some(r3) =>
        var (ts, r4) := TakeUntil(r3, '<');
        match AfterPrefix(SpanClose + SpeakerOpen, r4)
        case None => None
        case Some(r5) =>
          var (speaker, r6) := TakeUntil(r5, '<');
          match AfterPrefix(SpanClose + TextOpen, r6)
          case None => None
          case Some(r7) =>
            var (text, r8) := TakeUntil(r7, '<');
            match AfterPrefix(SpanClose + DivClose, r8)
            case None => None
            case Some(rest) => Some((SpeakerRow(cls, ts, speaker, text), rest))
  }

  function ReadSpeakers(h: string): Option<seq<SpeakerRow>>
    decreases |h|
  {
    if h == [] then Some([])
    else match ReadSpeaker(h)
      case None => None
      case Some((row, rest)) =>
        match ReadSpeakers(rest)
        case None => None
        case Some(more) => Some([row] + more)
  }

  /** Field values the reader can delimit. */
  predicate Delimited(row: SpeakerRow) {
    '"' !in row.cls && '<' !in row.ts && '<' !in row.speaker && '<' !in row.text
  }

  function RowHtml(row: SpeakerRow): string {
    SpeakerHtml(row.cls, row.ts, row.speaker, row.text)
  }

  lemma RegroupSpeaker(a: string, b: string, c: string, d: string, e: string, f: string, g: string,
                       h: string, i: string, j: string, k: string, rest: string)
    ensures a + b + c + d + e + f + g + h + f + i + j + f + k + rest
      == a + (b + ((c + d) + (e + ((f + g) + (h + ((f + i) + (j + ((f + k) + rest))))))))
  {
  }

  lemma ReadSpeakerBlock(row: SpeakerRow, rest: string)
    requires Delimited(row)
    ensures ReadSpeaker(RowHtml(row) + rest) == Some((row, rest))
  {
    var SpeakerRow(cls, ts, speaker, text) := row;
    var t4 := (SpanClose + DivClose) + rest;
    var t3 := (SpanClose + TextOpen) + (text + t4);
    var t2 := (SpanClose + SpeakerOpen) + (speaker + t3);
    var t1 := (TagEnd + TimeOpen) + (ts + t2);
    RegroupSpeaker(DivOpen, cls, TagEnd, TimeOpen, ts, SpanClose, SpeakerOpen, speaker, TextOpen, text, DivClose, rest);
    assert RowHtml(row) + rest == DivOpen + (cls + t1);
    AfterPrefixConcat(DivOpen, cls + t1);
    TakeUntilConcat(cls, t1, '"');
    AfterPrefixConcat(TagEnd + TimeOpen, ts + t2);
    TakeUntilConcat(ts, t2, '<');
    AfterPrefixConcat(SpanClose + SpeakerOpen, speaker + t3);
    TakeUntilConcat(speaker, t3, '<');
    AfterPrefixConcat(SpanClose + TextOpen, text + t4);
    TakeUntilConcat(text, t4, '<');
    AfterPrefixConcat(SpanClose + DivClose, rest);
  }

  /** A transcript of speaker blocks reads back into its rows, in order. */
  lemma {:induction false} ReadSpeakersRoundTrip(blocks: seq<string>, rows: seq<SpeakerRow>)
    requires |blocks| == |rows|
    requires forall i :: 0 <= i < |rows| ==> Delimited(rows[i]) && blocks[i] == RowHtml(rows[i])
    ensures ReadSpeakers(Concat(blocks)) == Some(rows)
    decreases |blocks|
  {
    if blocks != [] {
      ReadSpeakerBlock(rows[0], Concat(blocks[1..]));
      ReadSpeakersRoundTrip(blocks[1..], rows[1..]);
      assert [rows[0]] + rows[1..] == rows;
    }
  }

  /** Whatever the reader recovers is delimited: no field holds the character that ends it. */
  lemma {:induction false} ReadSpeakersDelimited(h: string)
    ensures ReadSpeakers(h).Some? ==> forall i :: 0 <= i < |ReadSpeakers(h).value| ==> Delimited(ReadSpeakers(h).value[i])
    decreases |h|
  {
    if h != [] && ReadSpeaker(h).Some? {
      ReadSpeakersDelimited(ReadSpeaker(h).value.1);
    }
  }
}
