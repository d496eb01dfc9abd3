/**
 * The two regular expressions the transcript service matches timestamps with,
 * as a backtracking engine would run them over ASCII text:
 *
 *   `^\s*(\d{1,2}:)?\d{1,2}:\d{2}\s*`            (stripped from the start of a line)
 *   `((?:\d{1,2}:)?\d{1,2}:\d{2})\s*([^0-9]+)`   (every timestamp and the text after it)
 *
 * `(\d{1,2}:)?` is greedy, so the alternative with the hours group is tried
 * first; `\d{1,2}` tries two digits before one. At any position at most one
 * of the two digit counts can be followed by `:`, so a position has at most
 * two candidate timestamp ends: with the hours group, then without.
 */
module TimestampPattern {
  import opened Wrappers
  import opened Text

  predicate DigitAt(s: string, i: int) {
    0 <= i < |s| && IsDigit(s[i])
  }

  predicate ColonAt(s: string, i: int) {
    0 <= i < |s| && s[i] == ':'
  }

  /** `\d{1,2}:` at `p`: where it ends. */
  function GroupEnd(s: string, p: nat): Option<nat> {
    if DigitAt(s, p) && DigitAt(s, p + 1) && ColonAt(s, p + 2) then Some(p + 3)
    else if DigitAt(s, p) && ColonAt(s, p + 1) then Some(p + 2)
    else None
  }

  /** `\d{1,2}:\d{2}` at `q`: where it ends. */
  function CoreEnd(s: string, q: nat): Option<nat> {
    if DigitAt(s, q) && DigitAt(s, q + 1) && ColonAt(s, q + 2) && DigitAt(s, q + 3) && DigitAt(s, q + 4) then Some(q + 5)
    else if DigitAt(s, q) && ColonAt(s, q + 1) && DigitAt(s, q + 2) && DigitAt(s, q + 3) then Some(q + 4)
    else None
  }

  /** The ends of `(\d{1,2}:)?\d{1,2}:\d{2}` at `p`, in the order the engine tries them. */
  function TimestampEnds(s: string, p: nat): seq<nat> {
    var withHours := match GroupEnd(s, p)
      case Some(g) => (match CoreEnd(s, g) case Some(e) => [e] case None => [])
      case None => [];
    var withoutHours := match CoreEnd(s, p) case Some(e) => [e] case None => [];
    withHours + withoutHours
  }

  // ---------------------------------------------------------------- what a timestamp is

  /** One or two digits. */
  predicate ShortNumber(x: string) {
    1 <= |x| <= 2 && AllDigits(x)
  }

  /**
   * A whole timestamp `[h:]m:ss`, read through its colon-separated fields:
   * one or two digits before each colon and exactly two after the last.
   */
  predicate IsTimestamp(t: string) {
    var f := Split(t, ':');
    (|f| == 2 && ShortNumber(f[0]) && |f[1]| == 2 && AllDigits(f[1]))
    || (|f| == 3 && ShortNumber(f[0]) && ShortNumber(f[1]) && |f[2]| == 2 && AllDigits(f[2]))
  }

  lemma DigitsHaveNoColon(x: string)
    requires AllDigits(x)
    ensures ':' !in x
  {
    forall i | 0 <= i < |x|
      ensures x[i] != ':'
    {
      assert IsDigit(x[i]);
    }
  }

  lemma TwoFields(a: string, b: string)
    requires AllDigits(a) && AllDigits(b)
    ensures Split(a + ":" + b, ':') == [a, b]
  {
    DigitsHaveNoColon(a);
    DigitsHaveNoColon(b);
    SplitJoin([a, b], ':');
    Join2(":", a, b);
  }

  lemma ThreeFields(a: string, b: string, c: string)
    requires AllDigits(a) && AllDigits(b) && AllDigits(c)
    ensures Split(a + ":" + b + ":" + c, ':') == [a, b, c]
  {
    DigitsHaveNoColon(a);
    DigitsHaveNoColon(b);
    DigitsHaveNoColon(c);
    SplitJoin([a, b, c], ':');
    Join3(":", a, b, c);
  }

  /** The text from `q` up to a core end is `m:ss`. */
  lemma CoreIsTimestamp(s: string, q: nat)
    requires CoreEnd(s, q).Some?
    ensures var e := CoreEnd(s, q).value; q < e <= |s| && IsTimestamp(s[q..e])
  {
    var e := CoreEnd(s, q).value;
    var m := s[q..e - 3];
    var ss := s[e - 2..e];
    assert s[q..e] == m + ":" + ss;
    TwoFields(m, ss);
  }

  lemma HoursCoreIsTimestamp(s: string, p: nat, g: nat)
    requires GroupEnd(s, p) == Some(g) && CoreEnd(s, g).Some?
    ensures var e := CoreEnd(s, g).value; p < e <= |s| && IsTimestamp(s[p..e])
  {
    var e := CoreEnd(s, g).value;
    var h := s[p..g - 1];
    var m := s[g..e - 3];
    var ss := s[e - 2..e];
    assert s[p..e] == h + ":" + m + ":" + ss;
    ThreeFields(h, m, ss);
  }

  /** Every candidate end closes a timestamp; the hours form, when present, is the longer one. */
  lemma TimestampEndsSound(s: string, p: nat)
    ensures var r := TimestampEnds(s, p);
      && |r| <= 2
      && (|r| == 2 ==> r[0] > r[1])
      && forall i :: 0 <= i < |r| ==> p < r[i] <= |s| && IsTimestamp(s[p..r[i]])
  {
    if GroupEnd(s, p).Some? && CoreEnd(s, GroupEnd(s, p).value).Some? {
      HoursCoreIsTimestamp(s, p, GroupEnd(s, p).value);
    }
    if CoreEnd(s, p).Some? {
      CoreIsTimestamp(s, p);
    }
  }

  lemma EndsFirstIsLongest(s: string, p: nat, e: nat)
    requires e in TimestampEnds(s, p)
    ensures e <= TimestampEnds(s, p)[0]
  {
    TimestampEndsSound(s, p);
  }

  /** The text of a timestamp is determined character by character by its fields. */
  lemma TimestampShape(t: string)
    requires IsTimestamp(t)
    ensures var f := Split(t, ':');
      (|f| == 2 ==> t == f[0] + ":" + f[1])
      && (|f| == 3 ==> t == f[0] + ":" + f[1] + ":" + f[2])
  {
    var f := Split(t, ':');
    JoinSplit(t, ':');
    if |f| == 2 {
      assert f == [f[0], f[1]];
      Join2(":", f[0], f[1]);
    } else {
      assert f == [f[0], f[1], f[2]];
      Join3(":", f[0], f[1], f[2]);
    }
  }

  /** Every timestamp that starts at `p` ends at one of the candidate ends. */
  lemma TimestampEndsComplete(s: string, p: nat, e: nat)
    requires p < e <= |s| && IsTimestamp(s[p..e])
    ensures e in TimestampEnds(s, p)
  {
    var t := s[p..e];
    var f := Split(t, ':');
    TimestampShape(t);
    if |f| == 2 {
      assert forall i :: 0 <= i < |t| ==> s[p + i] == t[i];
      if |f[0]| == 2 {
        assert t[0] == f[0][0] && t[1] == f[0][1] && t[2] == ':' && t[3] == f[1][0] && t[4] == f[1][1];
      } else {
        assert t[0] == f[0][0] && t[1] == ':' && t[2] == f[1][0] && t[3] == f[1][1];
      }
      assert CoreEnd(s, p) == Some(e);
    } else {
      assert forall i :: 0 <= i < |t| ==> s[p + i] == t[i];
      var g := p + |f[0]| + 1;
      if |f[0]| == 2 {
        assert t[0] == f[0][0] && t[1] == f[0][1] && t[2] == ':';
      } else {
        assert t[0] == f[0][0] && t[1] == ':';
      }
      assert GroupEnd(s, p) == Some(g);
      var u := f[1] + ":" + f[2];
      assert t == f[0] + ":" + u;
      assert forall i :: 0 <= i < |u| ==> s[g + i] == u[i];
      if |f[1]| == 2 {
        assert u[0] == f[1][0] && u[1] == f[1][1] && u[2] == ':' && u[3] == f[2][0] && u[4] == f[2][1];
      } else {
        assert u[0] == f[1][0] && u[1] == ':' && u[2] == f[2][0] && u[3] == f[2][1];
      }
      assert CoreEnd(s, g) == Some(e);
    }
  }

  /** A timestamp is made of digits and colons and starts with a digit. */
  lemma TimestampChars(t: string)
    requires IsTimestamp(t)
    ensures t != [] && IsDigit(t[0])
    ensures forall i :: 0 <= i < |t| ==> IsDigit(t[i]) || t[i] == ':'
  {
    var f := Split(t, ':');
    TimestampShape(t);
    if |f| == 2 {
      assert forall i :: 0 <= i < |f[0]| ==> t[i] == f[0][i];
      assert forall i :: 0 <= i < |f[1]| ==> t[|f[0]| + 1 + i] == f[1][i];
    } else {
      assert forall i :: 0 <= i < |f[0]| ==> t[i] == f[0][i];
      assert forall i :: 0 <= i < |f[1]| ==> t[|f[0]| + 1 + i] == f[1][i];
      assert forall i :: 0 <= i < |f[2]| ==> t[|f[0]| + |f[1]| + 2 + i] == f[2][i];
    }
  }

  // ---------------------------------------------------------------- runs of one character class

  /** Where the run of whitespace starting at `i` ends (`\s*`, greedy). */
  function SpaceEnd(s: string, i: nat): (j: nat)
    requires i <= |s|
    ensures i <= j <= |s|
    ensures j == |s| || !IsSpace(s[j])
    decreases |s| - i
  {
    if i < |s| && IsSpace(s[i]) then SpaceEnd(s, i + 1) else i
  }

  /** Where the run of non-digits starting at `i` ends (`[^0-9]*`, greedy). */
  function NonDigitEnd(s: string, i: nat): (j: nat)
    requires i <= |s|
    ensures i <= j <= |s|
    ensures j == |s| || IsDigit(s[j])
    decreases |s| - i
  {
    if i < |s| && !IsDigit(s[i]) then NonDigitEnd(s, i + 1) else i
  }

  lemma {:induction false} SpaceEndAllSpace(s: string, i: nat)
    requires i <= |s|
    ensures AllSpace(s[i..SpaceEnd(s, i)])
    decreases |s| - i
  {
    if i < |s| && IsSpace(s[i]) {
      SpaceEndAllSpace(s, i + 1);
      assert s[i..SpaceEnd(s, i)] == [s[i]] + s[i + 1..SpaceEnd(s, i)];
    }
  }

  predicate NoDigits(x: string) {
    forall i :: 0 <= i < |x| ==> !IsDigit(x[i])
  }

  lemma {:induction false} NonDigitEndNoDigits(s: string, i: nat)
    requires i <= |s|
    ensures NoDigits(s[i..NonDigitEnd(s, i)])
    decreases |s| - i
  {
    if i < |s| && !IsDigit(s[i]) {
      NonDigitEndNoDigits(s, i + 1);
      assert s[i..NonDigitEnd(s, i)] == [s[i]] + s[i + 1..NonDigitEnd(s, i)];
    }
  }

  /** A run of non-digits closed by a digit or the end is exactly what `NonDigitEnd` finds. */
  lemma {:induction false} NonDigitEndAt(s: string, i: nat, j: nat)
    requires i <= j <= |s| && NoDigits(s[i..j]) && (j == |s| || IsDigit(s[j]))
    ensures NonDigitEnd(s, i) == j
    decreases j - i
  {
    if i < j {
      assert s[i] == s[i..j][0];
      assert s[i + 1..j] == s[i..j][1..];
      NonDigitEndAt(s, i + 1, j);
    }
  }

  // ---------------------------------------------------------------- re.sub at the start of a line

  /** Where the timestamp of the substitution pattern ends, after the leading whitespace. */
  function LeadingTimestampEnd(line: string): Option<nat> {
    var ends := TimestampEnds(line, SpaceEnd(line, 0));
    if ends == [] then None else Some(ends[0])
  }

  /** `re.sub(r'^\s*(\d{1,2}:)?\d{1,2}:\d{2}\s*', '', line)`: the anchor allows one match at most, at 0. */
  function StripLeadingTimestamp(line: string): string {
    match LeadingTimestampEnd(line)
    case None => line
    case Some(e) =>
      TimestampEndsSound(line, SpaceEnd(line, 0));
      line[SpaceEnd(line, e)..]
  }

  /** The substitution finds a timestamp exactly when one follows the leading whitespace. */
  lemma LeadingTimestampFound(line: string)
    ensures LeadingTimestampEnd(line).Some? <==>
      exists e :: SpaceEnd(line, 0) < e <= |line| && IsTimestamp(line[SpaceEnd(line, 0)..e])
  {
    var p := SpaceEnd(line, 0);
    TimestampEndsSound(line, p);
    if e :| p < e <= |line| && IsTimestamp(line[p..e]) {
      TimestampEndsComplete(line, p, e);
    }
  }

  lemma LeadingTimestampLongest(line: string, e': nat)
    requires LeadingTimestampEnd(line).Some?
    requires SpaceEnd(line, 0) < e' <= |line| && IsTimestamp(line[SpaceEnd(line, 0)..e'])
    ensures e' <= LeadingTimestampEnd(line).value
  {
    var p := SpaceEnd(line, 0);
    var ends := TimestampEnds(line, p);
    TimestampEndsComplete(line, p, e');
    EndsFirstIsLongest(line, p, e');
  }

  /**
   * What the substitution removes when it finds a timestamp: the leading
   * whitespace, the LONGEST timestamp there and the whitespace after it.
   */
  lemma LeadingTimestampRemoved(line: string)
    requires LeadingTimestampEnd(line).Some?
    ensures var p, e := SpaceEnd(line, 0), LeadingTimestampEnd(line).value;
      && p < e <= |line|
      && AllSpace(line[..p]) && IsTimestamp(line[p..e]) && AllSpace(line[e..SpaceEnd(line, e)])
      && (forall e' :: p < e' <= |line| && IsTimestamp(line[p..e']) ==> e' <= e)
      && StripLeadingTimestamp(line) == line[SpaceEnd(line, e)..]
  {
    var p := SpaceEnd(line, 0);
    var e := LeadingTimestampEnd(line).value;
    SpaceEndAllSpace(line, 0);
    assert line[..p] == line[0..p];
    TimestampEndsSound(line, p);
    assert e == TimestampEnds(line, p)[0];
    SpaceEndAllSpace(line, e);
    forall e' | p < e' <= |line| && IsTimestamp(line[p..e'])
      ensures e' <= e
    {
      LeadingTimestampLongest(line, e');
    }
  }

  // ---------------------------------------------------------------- re.findall

  /** One match of the findall pattern: the timestamp group and the text group. */
  datatype Match = Match(start: nat, tsEnd: nat, textStart: nat, textEnd: nat)

  datatype Span = Span(lo: nat, hi: nat)

  /**
   * `\s*([^0-9]+)` after a timestamp ending at `e`. Greedy `\s*` stops at a
   * non-space; when that is a non-digit the text is the whole non-digit run
   * from there. Otherwise the engine gives one whitespace character back and
   * the text is that single character; with no whitespace to give back the
   * match fails.
   */
  function TextAfter(s: string, e: nat): Option<Span>
    requires e <= |s|
  {
    var w := SpaceEnd(s, e);
    if w < |s| && !IsDigit(s[w]) then Some(Span(w, NonDigitEnd(s, w)))
    else if w > e then Some(Span(w - 1, w))
    else None
  }

  /** Tries the candidate timestamp ends in order; the first one the text group accepts wins. */
  function FirstMatch(s: string, p: nat, ends: seq<nat>): Option<Match>
    requires forall i :: 0 <= i < |ends| ==> ends[i] <= |s|
  {
    if ends == [] then None
    else match TextAfter(s, ends[0])
      case Some(sp) => Some(Match(p, ends[0], sp.lo, sp.hi))
      case None => FirstMatch(s, p, ends[1..])
  }

  function MatchAt(s: string, p: nat): Option<Match> {
    TimestampEndsSound(s, p);
    FirstMatch(s, p, TimestampEnds(s, p))
  }

  /** What every match found satisfies: the two groups and the whitespace between them. */
  predicate WellFormed(s: string, m: Match) {
    && m.start < m.tsEnd <= m.textStart < m.textEnd <= |s|
    && IsTimestamp(s[m.start..m.tsEnd])
    && AllSpace(s[m.tsEnd..m.textStart])
    && NoDigits(s[m.textStart..m.textEnd])
    && (m.textEnd == |s| || IsDigit(s[m.textEnd]))
  }

  lemma TextAfterSound(s: string, e: nat)
    requires e <= |s| && TextAfter(s, e).Some?
    ensures var sp := TextAfter(s, e).value;
      e <= sp.lo < sp.hi <= |s| && AllSpace(s[e..sp.lo]) && NoDigits(s[sp.lo..sp.hi])
      && (sp.hi == |s| || IsDigit(s[sp.hi]))
  {
    var w := SpaceEnd(s, e);
    SpaceEndAllSpace(s, e);
    if w < |s| && !IsDigit(s[w]) {
      NonDigitEndNoDigits(s, w);
    } else {
      assert s[e..w - 1] == s[e..w][..w - 1 - e];
      assert s[w - 1] == s[e..w][w - 1 - e];
    }
  }

  lemma {:induction false} FirstMatchSound(s: string, p: nat, ends: seq<nat>)
    requires forall i :: 0 <= i < |ends| ==> p < ends[i] <= |s| && IsTimestamp(s[p..ends[i]])
    ensures FirstMatch(s, p, ends).Some? ==> var m := FirstMatch(s, p, ends).value; m.start == p && WellFormed(s, m)
    decreases |ends|
  {
    if ends != [] {
      if TextAfter(s, ends[0]).Some? {
        TextAfterSound(s, ends[0]);
      } else {
        FirstMatchSound(s, p, ends[1..]);
      }
    }
  }

  lemma MatchAtSound(s: string, p: nat)
    ensures MatchAt(s, p).Some? ==> MatchAt(s, p).value.start == p && WellFormed(s, MatchAt(s, p).value)
  {
    TimestampEndsSound(s, p);
    FirstMatchSound(s, p, TimestampEnds(s, p));
  }

  /**
   * The scan of `re.findall`: try a match at each position; after a match,
   * go on from its end (the pattern never matches the empty string).
   * The matches are well formed, in order and do not overlap.
   */
  function FindAll(s: string, from: nat): (ms: seq<Match>)
    ensures forall i :: 0 <= i < |ms| ==> from <= ms[i].start && WellFormed(s, ms[i])
    ensures forall i :: 0 <= i < |ms| - 1 ==> ms[i].textEnd <= ms[i + 1].start
    decreases |s| - from
  {
    if from >= |s| then []
    else
      MatchAtSound(s, from);
      match MatchAt(s, from)
      case Some(m) => [m] + FindAll(s, m.textEnd)
      case None => FindAll(s, from + 1)
  }

  /**
   * The scan misses nothing: each match is the match at its own start, and
   * no position it steps over (before the first match, between two, after
   * the last) starts a match.
   */
  lemma FindAllComplete(s: string, from: nat)
    ensures var ms := FindAll(s, from);
      && (forall i :: 0 <= i < |ms| ==> MatchAt(s, ms[i].start) == Some(ms[i]))
      && (ms == [] ==> NoMatchIn(s, from, |s|))
      && (ms != [] ==> NoMatchIn(s, from, ms[0].start) && NoMatchIn(s, ms[|ms| - 1].textEnd, |s|))
      && (forall i :: 0 <= i < |ms| - 1 ==> NoMatchIn(s, ms[i].textEnd, ms[i + 1].start))
  {
    FindAllAtStarts(s, from);
    FindAllGaps(s, from);
  }

  lemma {:induction false} FindAllAtStarts(s: string, from: nat)
    ensures var ms := FindAll(s, from);
      forall i :: 0 <= i < |ms| ==> MatchAt(s, ms[i].start) == Some(ms[i])
    decreases |s| - from
  {
    if from < |s| {
      MatchAtSound(s, from);
      match MatchAt(s, from)
      case Some(m) =>
        FindAllAtMatch(s, from, m);
        FindAllAtStarts(s, m.textEnd);
        var rest := FindAll(s, m.textEnd);
        var ms := [m] + rest;
        forall i | 0 <= i < |ms|
          ensures MatchAt(s, ms[i].start) == Some(ms[i])
        {
          if i > 0 {
            assert ms[i] == rest[i - 1];
          }
        }
      case None =>
        FindAllAtStarts(s, from + 1);
        assert FindAll(s, from) == FindAll(s, from + 1);
    }
  }

  lemma {:induction false} FindAllGaps(s: string, from: nat)
    ensures var ms := FindAll(s, from);
      && (ms == [] ==> NoMatchIn(s, from, |s|))
      && (ms != [] ==> NoMatchIn(s, from, ms[0].start) && NoMatchIn(s, ms[|ms| - 1].textEnd, |s|))
      && (forall i :: 0 <= i < |ms| - 1 ==> NoMatchIn(s, ms[i].textEnd, ms[i + 1].start))
    decreases |s| - from
  {
    if from < |s| {
      MatchAtSound(s, from);
      match MatchAt(s, from)
      case Some(m) =>
        FindAllAtMatch(s, from, m);
        FindAllGaps(s, m.textEnd);
        var rest := FindAll(s, m.textEnd);
        assert forall i :: 0 < i < |rest| + 1 ==> ([m] + rest)[i] == rest[i - 1];
      case None =>
        FindAllGaps(s, from + 1);
        var ms := FindAll(s, from + 1);
        NoMatchExtends(s, from, if ms == [] then |s| else ms[0].start);
    }
  }

  /** No match starts at any position of `[lo, hi)`. */
  predicate NoMatchIn(s: string, lo: nat, hi: nat) {
    forall k :: lo <= k < hi ==> MatchAt(s, k).None?
  }

  lemma NoMatchExtends(s: string, lo: nat, hi: nat)
    requires MatchAt(s, lo).None? && NoMatchIn(s, lo + 1, hi)
    ensures NoMatchIn(s, lo, hi)
  {
  }

  /** `re.findall(pattern, s)`: the (timestamp, text) pairs. */
  function FindTimestampedTexts(s: string): (pairs: seq<(string, string)>)
    ensures forall i :: 0 <= i < |pairs| ==> IsTimestamp(pairs[i].0) && pairs[i].1 != [] && NoDigits(pairs[i].1)
  {
    var ms := FindAll(s, 0);
    seq(|ms|, i requires 0 <= i < |ms| => (s[ms[i].start..ms[i].tsEnd], s[ms[i].textStart..ms[i].textEnd]))
  }
  // ---------------------------------------------------------------- reading a rendered transcript back

  /** A transcript written as `"<timestamp> <text>"` pieces, one after the other. */
  function RenderPairs(pairs: seq<(string, string)>): string {
    if pairs == [] then [] else pairs[0].0 + " " + pairs[0].1 + RenderPairs(pairs[1..])
  }

  /** Pieces that findall can tell apart: the text has no digit and does not start with whitespace. */
  predicate Readable(pairs: seq<(string, string)>) {
    forall i :: 0 <= i < |pairs| ==>
      IsTimestamp(pairs[i].0) && pairs[i].1 != [] && NoDigits(pairs[i].1) && !IsSpace(pairs[i].1[0])
  }

  /** No timestamp starting at `p` runs past a space at `k`. */
  lemma TimestampStopsAtSpace(s: string, p: nat, e: nat, k: nat)
    requires p < e <= |s| && IsTimestamp(s[p..e]) && p <= k < |s| && s[k] == ' '
    ensures e <= k
  {
    TimestampChars(s[p..e]);
    assert forall i :: p <= i < e ==> s[i] == s[p..e][i - p];
  }

  lemma FirstEndAtSpace(s: string, from: nat, k: nat)
    requires from < k < |s| && IsTimestamp(s[from..k]) && s[k] == ' '
    ensures TimestampEnds(s, from) != [] && TimestampEnds(s, from)[0] == k
  {
    var ends := TimestampEnds(s, from);
    TimestampEndsComplete(s, from, k);
    TimestampEndsSound(s, from);
    TimestampStopsAtSpace(s, from, ends[0], k);
    EndsFirstIsLongest(s, from, k);
  }

  lemma TextAfterSpace(s: string, k: nat, j: nat)
    requires k + 1 < j <= |s| && s[k] == ' ' && !IsSpace(s[k + 1])
    requires NoDigits(s[k + 1..j]) && (j == |s| || IsDigit(s[j]))
    ensures TextAfter(s, k) == Some(Span(k + 1, j))
  {
    assert s[k + 1] == s[k + 1..j][0];
    NonDigitEndAt(s, k + 1, j);
    assert SpaceEnd(s, k + 1) == k + 1;
  }

  /** Where the pieces of the first rendered pair sit. */
  lemma RenderedLayout(s: string, from: nat, pairs: seq<(string, string)>)
    requires from <= |s| && s[from..] == RenderPairs(pairs) && pairs != []
    ensures var k := from + |pairs[0].0|; var j := k + 1 + |pairs[0].1|;
      j <= |s| && s[from..k] == pairs[0].0 && s[k] == ' ' && s[k + 1..j] == pairs[0].1
      && s[j..] == RenderPairs(pairs[1..])
  {
    var ts, text, rest := pairs[0].0, pairs[0].1, RenderPairs(pairs[1..]);
    var u := s[from..];
    assert u == ts + " " + text + rest;
    var k := |ts|;
    var j := k + 1 + |text|;
    assert u[..k] == ts;
    assert u[k] == ' ';
    assert u[k + 1..j] == text;
    assert u[j..] == rest;
  }

  lemma FirstEndRendered(s: string, from: nat, pairs: seq<(string, string)>)
    requires from <= |s| && s[from..] == RenderPairs(pairs) && pairs != [] && Readable(pairs)
    ensures var k := from + |pairs[0].0|;
      k < |s| && TimestampEnds(s, from) != [] && TimestampEnds(s, from)[0] == k
  {
    RenderedLayout(s, from, pairs);
    var ts := pairs[0].0;
    assert IsTimestamp(ts);
    TimestampChars(ts);
    FirstEndAtSpace(s, from, from + |ts|);
  }

  lemma TextRendered(s: string, from: nat, pairs: seq<(string, string)>)
    requires from <= |s| && s[from..] == RenderPairs(pairs) && pairs != [] && Readable(pairs)
    ensures var k := from + |pairs[0].0|; var j := k + 1 + |pairs[0].1|;
      j <= |s| && TextAfter(s, k) == Some(Span(k + 1, j))
  {
    RenderedLayout(s, from, pairs);
    var ts, text := pairs[0].0, pairs[0].1;
    assert text != [] && NoDigits(text) && !IsSpace(text[0]);
    var k := from + |ts|;
    var j := k + 1 + |text|;
    if pairs[1..] != [] {
      assert IsTimestamp(pairs[1..][0].0);
      TimestampChars(pairs[1..][0].0);
      assert s[j] == s[j..][0];
    }
    assert s[k + 1] == text[0];
    TextAfterSpace(s, k, j);
  }

  lemma MatchAtFirst(s: string, p: nat, e: nat, sp: Span)
    requires TimestampEnds(s, p) != [] && TimestampEnds(s, p)[0] == e && e <= |s|
    requires TextAfter(s, e) == Some(sp)
    ensures MatchAt(s, p) == Some(Match(p, e, sp.lo, sp.hi))
  {
    TimestampEndsSound(s, p);
  }

  lemma FindAllAtMatch(s: string, from: nat, m: Match)
    requires from < |s| && MatchAt(s, from) == Some(m)
    ensures FindAll(s, from) == [m] + FindAll(s, m.textEnd)
  {
  }

  /** The first rendered pair is the match found at its start. */
  lemma FirstMatchRendered(s: string, from: nat, pairs: seq<(string, string)>) returns (m: Match)
    requires from <= |s| && s[from..] == RenderPairs(pairs) && pairs != [] && Readable(pairs)
    ensures from < |s| && MatchAt(s, from) == Some(m) && WellFormed(s, m)
    ensures s[m.start..m.tsEnd] == pairs[0].0 && s[m.textStart..m.textEnd] == pairs[0].1
    ensures s[m.textEnd..] == RenderPairs(pairs[1..]) && Readable(pairs[1..])
  {
    RenderedLayout(s, from, pairs);
    FirstEndRendered(s, from, pairs);
    TextRendered(s, from, pairs);
    var k := from + |pairs[0].0|;
    var j := k + 1 + |pairs[0].1|;
    MatchAtFirst(s, from, k, Span(k + 1, j));
    MatchAtSound(s, from);
    m := Match(from, k, k + 1, j);
  }

  lemma {:induction false} FindAllRendered(s: string, from: nat, pairs: seq<(string, string)>)
    requires from <= |s| && s[from..] == RenderPairs(pairs) && Readable(pairs)
    ensures var ms := FindAll(s, from);
      |ms| == |pairs|
      && forall i :: 0 <= i < |ms| ==>
           s[ms[i].start..ms[i].tsEnd] == pairs[i].0 && s[ms[i].textStart..ms[i].textEnd] == pairs[i].1
    decreases |pairs|
  {
    if pairs == [] {
      assert |s| - from == 0;
    } else {
      var m := FirstMatchRendered(s, from, pairs);
      FindAllRendered(s, m.textEnd, pairs[1..]);
      var rest := FindAll(s, m.textEnd);
      FindAllAtMatch(s, from, m);
      var ms := [m] + rest;
      forall i | 0 <= i < |ms|
        ensures s[ms[i].start..ms[i].tsEnd] == pairs[i].0 && s[ms[i].textStart..ms[i].textEnd] == pairs[i].1
      {
        if i > 0 {
          assert ms[i] == rest[i - 1];
          assert pairs[i] == pairs[1..][i - 1];
        }
      }
    }
  }

  /** findall reads a transcript written as timestamp/text pieces back into exactly those pieces. */
  lemma FindTimestampedTextsRoundTrip(pairs: seq<(string, string)>)
    requires Readable(pairs)
    ensures FindTimestampedTexts(RenderPairs(pairs)) == pairs
  {
    var s := RenderPairs(pairs);
    assert s[0..] == s;
    FindAllRendered(s, 0, pairs);
  }
}
