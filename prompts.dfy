/**
 * The rule-evaluation prompt shared by the three LLM back ends: fixed
 * prose around a block of numbered rules (`1. rule`, one per line) and the
 * transcript in triple quotes, stripped at both ends.
 */
module Prompts {
  import opened Wrappers
  import opened Text

  /**
   * The prose of a prompt template, kept abstract: the text before the
   * rule block, between the rule block and the transcript, and after the
   * transcript up to the closing bracket of the example JSON.
   */
  datatype Template = Template(opening: string, beforeTranscript: string, closing: string)

  const FirstLine: string := "You are a quality audit evaluation engine."
  const Quotes: string := "\"\"\""

  /**
   * What every audit template has: it opens with the engine's first line,
   * puts the transcript between triple quotes and ends with `]`.
   */
  predicate IsAuditTemplate(t: Template) {
    FirstLine <= t.opening && EndsWith(t.beforeTranscript, Quotes)
    && Quotes <= t.closing && EndsWith(t.closing, "]")
  }

  /** The line break and the 16-space indentation around the template's text. */
  const Margin: string := "\n                "

  /** `f"{i+1}. {rule}"` */
  function NumberedLine(i: nat, rule: string): string {
    NatToString(i + 1) + ". " + rule
  }

  function NumberedLines(rules: seq<string>): (lines: seq<string>)
    ensures |lines| == |rules|
    ensures forall i :: 0 <= i < |rules| ==> lines[i] == NumberedLine(i, rules[i])
  {
    seq(|rules|, i requires 0 <= i < |rules| => NumberedLine(i, rules[i]))
  }

  /** `"\n".join(f"{i+1}. {rule}" for i, rule in enumerate(rules))` */
  function RuleBlock(rules: seq<string>): string {
    Join("\n", NumberedLines(rules))
  }

  /** The f-string before `strip()`: a line break and indentation on each side. */
  function RawPrompt(t: Template, rules: seq<string>, transcript: string): string {
    Margin + t.opening + RuleBlock(rules) + t.beforeTranscript + transcript + t.closing + Margin
  }

  /** `build_gpt_prompt` with the given `"rule"` instruction line and the rules as listed. */
  function Prompt(t: Template, rules: seq<string>, transcript: string): (p: string)
    ensures NoSpaceAtEnds(p)
  {
    Strip(RawPrompt(t, rules, transcript))
  }

  /**
   * Stripping removes only the template's own outer whitespace: the prompt
   * is the prose with the rule block and the transcript in their places,
   * whatever whitespace the rules or the transcript carry.
   */
  lemma PromptLayout(t: Template, rules: seq<string>, transcript: string)
    requires IsAuditTemplate(t)
    ensures Prompt(t, rules, transcript)
      == t.opening + RuleBlock(rules) + t.beforeTranscript + transcript + t.closing
  {
    assert AllSpace(Margin);
    assert t.opening[0] == FirstLine[0] == 'Y';
    assert t.closing[|t.closing| - 1] == ']';
    StripFramed(Margin, t.opening, RuleBlock(rules), t.beforeTranscript, transcript, t.closing);
  }

  /** The prompt opens with the engine's first line and quotes the transcript verbatim. */
  lemma PromptQuotesTranscript(t: Template, rules: seq<string>, transcript: string)
    requires IsAuditTemplate(t)
    ensures FirstLine <= Prompt(t, rules, transcript)
    ensures Contains(Prompt(t, rules, transcript), Quotes + transcript + Quotes)
  {
    PromptLayout(t, rules, transcript);
    QuotedInside(t.opening, RuleBlock(rules), t.beforeTranscript, transcript, t.closing);
    PrefixOfConcat(FirstLine, t.opening, RuleBlock(rules), t.beforeTranscript, transcript, t.closing);
  }

  lemma PrefixOfConcat(x: string, a: string, b: string, c: string, d: string, e: string)
    requires x <= a
    ensures x <= a + b + c + d + e
  {
    assert a + b + c + d + e == a + (b + c + d + e);
    assert (a + (b + c + d + e))[..|x|] == a[..|x|];
  }

  lemma QuotedInside(o: string, block: string, b: string, transcript: string, c: string)
    requires EndsWith(b, Quotes) && Quotes <= c
    ensures Contains(o + block + b + transcript + c, Quotes + transcript + Quotes)
  {
    var pre := o + block + b[..|b| - |Quotes|];
    var mid := Quotes + transcript + Quotes;
    var post := c[|Quotes|..];
    assert b == b[..|b| - |Quotes|] + Quotes;
    assert c == Quotes + post;
    var p := o + block + b + transcript + c;
    assert p == pre + mid + post;
    assert p[|pre|..|pre| + |mid|] == mid;
    assert OccursAt(p, mid, |pre|);
  }

  lemma StripFramed(w: string, a: string, b: string, c: string, d: string, e: string)
    requires AllSpace(w) && a != [] && !IsSpace(a[0]) && e != [] && !IsSpace(e[|e| - 1])
    ensures Strip(w + a + b + c + d + e + w) == a + b + c + d + e
  {
    var body := a + b + c + d + e;
    assert body[0] == a[0];
    assert body[|body| - 1] == e[|e| - 1];
    assert w + a + b + c + d + e + w == w + body + w;
    StripPadded(w, body, w);
  }

  // ---------------------------------------------------------------- reading the rule block back

  /** Reads `"<n>. <rule>"` back into its number and rule. */
  function ReadNumberedLine(line: string): Option<(nat, string)> {
    var (digits, rest) := TakeUntil(line, '.');
    if digits != [] && AllDigits(digits) && |rest| >= 2 && rest[..2] == ". " then
      Some((DigitsValue(digits), rest[2..]))
    else None
  }

  lemma NumberedLineReadsBack(i: nat, rule: string)
    ensures ReadNumberedLine(NumberedLine(i, rule)) == Some((i + 1, rule))
  {
    var digits := NatToString(i + 1);
    assert '.' !in digits by {
      forall k | 0 <= k < |digits|
        ensures digits[k] != '.'
      {
        assert IsDigit(digits[k]);
      }
    }
    assert NumberedLine(i, rule) == digits + (". " + rule);
    TakeUntilConcat(digits, ". " + rule, '.');
    NatToStringRoundTrip(i + 1);
    assert (". " + rule)[2..] == rule;
  }

  /** The rules of lines numbered `from`, `from + 1`, ... in order. */
  function ReadLinesFrom(from: nat, lines: seq<string>): Option<seq<string>>
    decreases |lines|
  {
    if lines == [] then Some([])
    else match (ReadNumberedLine(lines[0]), ReadLinesFrom(from + 1, lines[1..]))
      case (Some((n, rule)), Some(rest)) => if n == from then Some([rule] + rest) else None
      case _ => None
  }

  /** The rules listed in a rule block, when it is a well-numbered list. */
  function ReadRuleBlock(block: string): Option<seq<string>> {
    if block == [] then Some([]) else ReadLinesFrom(1, Split(block, '\n'))
  }

  lemma {:induction false} ReadNumberedLines(k: nat, rules: seq<string>)
    ensures ReadLinesFrom(k + 1, seq(|rules|, i requires 0 <= i < |rules| => NumberedLine(k + i, rules[i]))) == Some(rules)
    decreases |rules|
  {
    if rules != [] {
      var lines := seq(|rules|, i requires 0 <= i < |rules| => NumberedLine(k + i, rules[i]));
      assert lines[1..] == seq(|rules[1..]|, i requires 0 <= i < |rules[1..]| => NumberedLine(k + 1 + i, rules[1..][i]));
      NumberedLineReadsBack(k, rules[0]);
      ReadNumberedLines(k + 1, rules[1..]);
      assert [rules[0]] + rules[1..] == rules;
    }
  }

  predicate OneLineEach(rules: seq<string>) {
    forall i :: 0 <= i < |rules| ==> '\n' !in rules[i]
  }

  /** The rule block lists the rules one per line, numbered from 1 in input order, when no rule spans lines. */
  lemma RuleBlockRoundTrip(rules: seq<string>)
    requires OneLineEach(rules)
    ensures ReadRuleBlock(RuleBlock(rules)) == Some(rules)
  {
    var lines := NumberedLines(rules);
    if rules != [] {
      forall i | 0 <= i < |lines|
        ensures '\n' !in lines[i]
      {
        var digits := NatToString(i + 1);
        assert lines[i] == digits + ". " + rules[i];
        assert '\n' !in digits by {
          forall k | 0 <= k < |digits|
            ensures digits[k] != '\n'
          {
            assert IsDigit(digits[k]);
          }
        }
      }
      SplitJoin(lines, '\n');
      assert RuleBlock(rules) != [] by {
        assert lines[0] != [];
        JoinNonEmpty(lines);
      }
      assert lines == seq(|rules|, i requires 0 <= i < |rules| => NumberedLine(0 + i, rules[i]));
      ReadNumberedLines(0, rules);
    }
  }

  lemma JoinNonEmpty(lines: seq<string>)
    requires lines != [] && lines[0] != []
    ensures Join("\n", lines) != []
  {
  }

  /** `rule.replace('\n', ' ')` for every rule. */
  function CleanRules(rules: seq<string>): (r: seq<string>)
    ensures |r| == |rules|
    ensures OneLineEach(r)
    ensures forall i :: 0 <= i < |rules| ==> r[i] == ReplaceChar(rules[i], '\n', ' ')
  {
    seq(|rules|, i requires 0 <= i < |rules| => ReplaceChar(rules[i], '\n', ' '))
  }

  /** Cleaning leaves a one-line rule as it is. */
  lemma CleanKeepsOneLineRules(rules: seq<string>)
    requires OneLineEach(rules)
    ensures CleanRules(rules) == rules
  {
    forall i | 0 <= i < |rules|
      ensures CleanRules(rules)[i] == rules[i]
    {
      assert ReplaceChar(rules[i], '\n', ' ') == rules[i];
    }
  }
}
