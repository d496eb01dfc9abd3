/**
 * `html.escape` (with `quote=True`) and the block rendering every transcript
 * formatter uses: an indented f-string template whose lines are stripped and
 * glued together, `"".join(line.strip() for line in block.splitlines())`.
 */
module Html {
  import opened Text

  // ---------------------------------------------------------------- html.escape

  function EscapeChar(c: char): string {
    if c == '&' then "&amp;"
    else if c == '<' then "&lt;"
    else if c == '>' then "&gt;"
    else if c == '"' then "&quot;"
    else if c == '\'' then "&#x27;"
    else [c]
  }

  /** `html.escape(s)`: `&` first, then `<`, `>`, `"` and `'`. */
  function Escape(s: string): string {
    if s == [] then [] else EscapeChar(s[0]) + Escape(s[1..])
  }

  /** The inverse of `Escape` on the five entities it produces. */
  function Unescape(r: string): string
    decreases |r|
  {
    if r == [] then []
    else if "&amp;" <= r then "&" + Unescape(r[5..])
    else if "&lt;" <= r then "<" + Unescape(r[4..])
    else if "&gt;" <= r then ">" + Unescape(r[4..])
    else if "&quot;" <= r then "\"" + Unescape(r[6..])
    else if "&#x27;" <= r then "'" + Unescape(r[6..])
    else [r[0]] + Unescape(r[1..])
  }

  predicate IsMarkup(c: char) {
    c == '<' || c == '>' || c == '"' || c == '\''
  }

  /** One of the five entities `Escape` writes begins at index `i`. */
  predicate EntityAt(r: string, i: nat)
    requires i <= |r|
  {
    "&amp;" <= r[i..] || "&lt;" <= r[i..] || "&gt;" <= r[i..] || "&quot;" <= r[i..] || "&#x27;" <= r[i..]
  }

  /** Text that is safe inside an element or a quoted attribute. */
  predicate WellEscaped(r: string) {
    && (forall i :: 0 <= i < |r| ==> !IsMarkup(r[i]))
    && (forall i :: 0 <= i < |r| && r[i] == '&' ==> EntityAt(r, i))
  }

  lemma EscapeCharWellEscaped(c: char, rest: string)
    requires WellEscaped(rest)
    ensures WellEscaped(EscapeChar(c) + rest)
  {
    var e := EscapeChar(c);
    var r := e + rest;
    forall i | 0 <= i < |r|
      ensures !IsMarkup(r[i])
      ensures r[i] == '&' ==> EntityAt(r, i)
    {
      if i < |e| {
        assert r[i] == e[i];
        if i == 0 && r[i] == '&' {
          assert r[0..] == r;
          assert e <= r;
        }
      } else {
        assert r[i] == rest[i - |e|];
        assert r[i..] == rest[i - |e|..];
      }
    }
  }

  /** The escaped text has no raw markup character and every `&` starts an entity. */
  lemma {:induction false} EscapeIsWellEscaped(s: string)
    ensures WellEscaped(Escape(s))
    decreases |s|
  {
    if s != [] {
      EscapeIsWellEscaped(s[1..]);
      EscapeCharWellEscaped(s[0], Escape(s[1..]));
    }
  }

  lemma UnescapeEscapeChar(c: char, rest: string)
    ensures Unescape(EscapeChar(c) + rest) == [c] + Unescape(rest)
  {
    var r := EscapeChar(c) + rest;
    if c == '&' {
      assert "&amp;" <= r;
      assert r[5..] == rest;
    } else if c == '<' {
      assert r[1] == 'l' && !("&amp;" <= r);
      assert "&lt;" <= r;
      assert r[4..] == rest;
    } else if c == '>' {
      assert r[1] == 'g' && !("&amp;" <= r) && !("&lt;" <= r);
      assert "&gt;" <= r;
      assert r[4..] == rest;
    } else if c == '"' {
      assert r[1] == 'q' && !("&amp;" <= r) && !("&lt;" <= r) && !("&gt;" <= r);
      assert "&quot;" <= r;
      assert r[6..] == rest;
    } else if c == '\'' {
      assert r[1] == '#' && !("&amp;" <= r) && !("&lt;" <= r) && !("&gt;" <= r) && !("&quot;" <= r);
      assert "&#x27;" <= r;
      assert r[6..] == rest;
    } else {
      assert r[0] == c && r[1..] == rest;
      assert !("&amp;" <= r) && !("&lt;" <= r) && !("&gt;" <= r) && !("&quot;" <= r) && !("&#x27;" <= r);
    }
  }

  /** Escaping loses nothing: unescaping gives the original text back. */
  lemma {:induction false} UnescapeEscape(s: string)
    ensures Unescape(Escape(s)) == s
    decreases |s|
  {
    if s != [] {
      UnescapeEscapeChar(s[0], Escape(s[1..]));
      UnescapeEscape(s[1..]);
      assert [s[0]] + s[1..] == s;
    }
  }

  /** Escaping maps whitespace to itself and everything else to non-space, so it keeps the ends of stripped text. */
  lemma {:induction false} EscapeEnds(s: string)
    ensures |Escape(s)| >= |s|
    ensures s != [] ==> Escape(s)[0] == EscapeChar(s[0])[0]
    ensures s != [] ==> Escape(s)[|Escape(s)| - 1] == (var e := EscapeChar(s[|s| - 1]); e[|e| - 1])
    decreases |s|
  {
    if |s| > 1 {
      EscapeEnds(s[1..]);
      assert s[1..][|s[1..]| - 1] == s[|s| - 1];
    }
  }

  lemma EscapeKeepsStripped(s: string)
    requires NoSpaceAtEnds(s)
    ensures NoSpaceAtEnds(Escape(s))
  {
    EscapeEnds(s);
  }

  lemma {:induction false} EscapeKeepsOutNewline(s: string)
    requires '\n' !in s
    ensures '\n' !in Escape(s)
    decreases |s|
  {
    if s != [] {
      assert s[0] != '\n';
      assert '\n' !in s[1..] by {
        forall i | 0 <= i < |s| - 1
          ensures s[1..][i] != '\n'
        {
          assert s[1..][i] == s[i + 1];
        }
      }
      EscapeKeepsOutNewline(s[1..]);
    }
  }

  // ---------------------------------------------------------------- block rendering

  /** `"".join(line.strip() for line in lines)` */
  function ConcatStripped(lines: seq<string>): string {
    if lines == [] then [] else Strip(lines[0]) + ConcatStripped(lines[1..])
  }

  /** `"".join(line.strip() for line in s.splitlines())` */
  function Collapse(s: string): string {
    ConcatStripped(SplitLines(s))
  }

  lemma {:induction false} ConcatStrippedAppend(xs: seq<string>, ys: seq<string>)
    ensures ConcatStripped(xs + ys) == ConcatStripped(xs) + ConcatStripped(ys)
    decreases |xs|
  {
    if xs == [] {
      assert xs + ys == ys;
    } else {
      assert (xs + ys)[1..] == xs[1..] + ys;
      ConcatStrippedAppend(xs[1..], ys);
    }
  }

  /** The trailing empty piece that `splitlines` drops contributes nothing. */
  lemma CollapseBySplit(s: string)
    ensures Collapse(s) == ConcatStripped(Split(s, '\n'))
  {
    var parts := Split(s, '\n');
    if parts[|parts| - 1] == [] {
      var init := parts[..|parts| - 1];
      assert parts == init + [[]];
      ConcatStrippedAppend(init, [[]]);
      assert ConcatStripped([[]]) == Strip([]) + ConcatStripped([]);
    }
  }

  lemma CollapseAtNewline(a: string, b: string)
    ensures Collapse(a + "\n" + b) == Collapse(a) + Collapse(b)
  {
    SplitAtSep(a, b, '\n');
    CollapseBySplit(a + "\n" + b);
    CollapseBySplit(a);
    CollapseBySplit(b);
    ConcatStrippedAppend(Split(a, '\n'), Split(b, '\n'));
  }

  lemma CollapseOneLine(s: string)
    requires '\n' !in s
    ensures Collapse(s) == Strip(s)
  {
    SplitNoSep(s, '\n');
    CollapseBySplit(s);
    assert ConcatStripped([s]) == Strip(s) + ConcatStripped([]);
  }

  lemma CollapseFlat(s: string)
    requires '\n' !in s && NoSpaceAtEnds(s)
    ensures Collapse(s) == s
  {
    CollapseOneLine(s);
    NoSpaceAtEndsStrip(s);
  }

  /** Collapsing only removes characters. */
  lemma CollapseKeepsOut(s: string, c: char)
    requires c !in s
    ensures c !in Collapse(s)
  {
    CollapseBySplit(s);
    SplitKeepsOut(s, '\n', c);
    var parts := Split(s, '\n');
    ConcatStrippedKeepsOut(parts, c);
  }

  lemma {:induction false} ConcatStrippedKeepsOut(xs: seq<string>, c: char)
    requires forall i :: 0 <= i < |xs| ==> c !in xs[i]
    ensures c !in ConcatStripped(xs)
    decreases |xs|
  {
    if xs != [] {
      StripKeepsOut(xs[0], c);
      ConcatStrippedKeepsOut(xs[1..], c);
    }
  }

  /** Escaped text holds no `<` and no `"`. */
  lemma EscapeHasNoMarkup(s: string)
    ensures '<' !in Escape(s) && '"' !in Escape(s)
  {
    EscapeIsWellEscaped(s);
    var r := Escape(s);
    assert forall i :: 0 <= i < |r| ==> !IsMarkup(r[i]);
  }

  /** A collapsed block never contains a line break. */
  lemma CollapseHasNoNewline(s: string)
    ensures '\n' !in Collapse(s)
  {
    CollapseBySplit(s);
    ConcatStrippedKeepsOut(Split(s, '\n'), '\n');
  }

  /** The first piece of a split starts like the string when that does not start with the separator. */
  lemma SplitFirstStarts(s: string, sep: char)
    requires s != [] && s[0] != sep
    ensures Split(s, sep)[0] != [] && Split(s, sep)[0][0] == s[0]
  {
  }

  /** The last piece of a split ends like the string when that does not end with the separator. */
  lemma {:induction false} SplitLastEnds(s: string, sep: char)
    requires s != [] && s[|s| - 1] != sep
    ensures var p := Split(s, sep); var l := p[|p| - 1]; l != [] && l[|l| - 1] == s[|s| - 1]
    decreases |s|
  {
    if |s| > 1 {
      assert s[1..][|s[1..]| - 1] == s[|s| - 1];
      SplitLastEnds(s[1..], sep);
    }
  }

  lemma {:induction false} SplitPrepend(a: string, b: string, sep: char)
    requires sep !in a
    ensures Split(a + b, sep) == [a + Split(b, sep)[0]] + Split(b, sep)[1..]
    decreases |a|
  {
    if a == [] {
      assert a + b == b;
      var q := Split(b, sep);
      assert a + q[0] == q[0];
      assert [q[0]] + q[1..] == q;
    } else {
      assert (a + b)[1..] == a[1..] + b;
      assert sep !in a[1..] by {
        forall i | 0 <= i < |a| - 1
          ensures a[1..][i] != sep
        {
          assert a[1..][i] == a[i + 1];
        }
      }
      SplitPrepend(a[1..], b, sep);
      assert [a[0]] + (a[1..] + Split(b, sep)[0]) == a + Split(b, sep)[0];
    }
  }

  lemma {:induction false} SplitAppend(a: string, b: string, sep: char)
    requires sep !in b
    ensures var p := Split(a, sep); Split(a + b, sep) == p[..|p| - 1] + [p[|p| - 1] + b]
    decreases |a|
  {
    var p := Split(a, sep);
    if a == [] {
      assert a + b == b;
      SplitNoSep(b, sep);
    } else {
      assert (a + b)[1..] == a[1..] + b;
      SplitAppend(a[1..], b, sep);
      var q := Split(a[1..], sep);
      if a[0] == sep {
        assert p == [[]] + q;
      } else {
        assert p == [[a[0]] + q[0]] + q[1..];
        if |q| == 1 {
          assert [a[0]] + (q[0] + b) == [a[0]] + q[0] + b;
        } else {
          assert (q[..|q| - 1] + [q[|q| - 1] + b])[1..] == q[1..][..|q| - 2] + [q[|q| - 1] + b];
        }
      }
    }
  }

  /** Stripping `open + t + close` on one line keeps the inside intact. */
  lemma StripAroundInsideGrouped(p: string, open: string, t: string, close: string)
    requires LStrip(p) == open && p != [] && !IsSpace(p[|p| - 1])
    requires close != [] && !IsSpace(close[|close| - 1])
    ensures Strip(p + (t + close)) == open + (t + close)
  {
    var w := open + (t + close);
    LStripConcat(p, t + close);
    assert w[|w| - 1] == close[|close| - 1];
    RStripNonSpaceEnd(w);
  }

  /** Stripping `open + t + close` on one line keeps the inside intact. */
  lemma StripAroundInside(p: string, open: string, t: string, close: string)
    requires LStrip(p) == open && p != [] && !IsSpace(p[|p| - 1])
    requires close != [] && !IsSpace(close[|close| - 1])
    ensures Strip(p + t + close) == open + t + close
  {
    StripAroundInsideGrouped(p, open, t, close);
    Regroup(p, t, close);
    Regroup(open, t, close);
  }

  /** The first line of a broken interpolation: the template text before it keeps its markup. */
  lemma StripFirstPiece(p: string, open: string, first: string)
    requires LStrip(p) == open && p != [] && !IsSpace(p[|p| - 1])
    requires first != [] && !IsSpace(first[0])
    ensures Strip(p + first) == open + Strip(first)
  {
    LStripConcat(p, first);
    RStripConcat(open, first);
    LStripNonSpaceStart(first);
  }

  /** The last line of a broken interpolation: the template text after it keeps its markup. */
  lemma StripLastPiece(last: string, close: string)
    requires last != [] && !IsSpace(last[|last| - 1])
    requires close != [] && !IsSpace(close[0]) && !IsSpace(close[|close| - 1])
    ensures Strip(last + close) == Strip(last) + close
  {
    var l := LStrip(last);
    LStripConcat(last, close);
    RStripConcat(l, close);
    RStripNonSpaceEnd(close);
    LStripSuffix(last);
    assert l != [] && l == last[|last| - |l|..];
    assert l[|l| - 1] == last[|last| - 1];
    RStripNonSpaceEnd(l);
  }

  lemma CollapseLineFlat(p: string, open: string, t: string, close: string)
    requires LStrip(p) == open && p != [] && !IsSpace(p[|p| - 1]) && '\n' !in p
    requires close != [] && !IsSpace(close[0]) && !IsSpace(close[|close| - 1]) && '\n' !in close
    requires NoSpaceAtEnds(t) && '\n' !in t
    ensures Collapse(p + t + close) == open + Collapse(t) + close
  {
    CollapseFlat(t);
    assert '\n' !in p + t + close;
    CollapseOneLine(p + t + close);
    StripAroundInside(p, open, t, close);
  }

  lemma SplitBroken(p: string, t: string, close: string) returns (first: string, middle: seq<string>, last: string)
    requires '\n' !in p && '\n' !in close && '\n' in t && NoSpaceAtEnds(t)
    ensures Split(t, '\n') == [first] + middle + [last]
    ensures Split(p + t + close, '\n') == [p + first] + middle + [last + close]
    ensures first != [] && !IsSpace(first[0])
    ensures last != [] && !IsSpace(last[|last| - 1])
  {
    var parts := Split(t, '\n');
    assert t != [] && t[0] != '\n' && t[|t| - 1] != '\n';
    SplitFirstStarts(t, '\n');
    SplitLastEnds(t, '\n');
    assert |parts| >= 2 by {
      var i :| 0 <= i < |t| && t[i] == '\n';
      assert t == t[..i] + ['\n'] + t[i + 1..];
      SplitAtSep(t[..i], t[i + 1..], '\n');
    }
    first := parts[0];
    last := parts[|parts| - 1];
    middle := parts[1..|parts| - 1];
    assert parts == [first] + middle + [last];
    SplitPrepend(p, t + close, '\n');
    SplitAppend(t, close, '\n');
    var q := Split(t + close, '\n');
    assert q == parts[..|parts| - 1] + [last + close];
    assert q[0] == first;
    assert p + t + close == p + (t + close);
    assert q[1..] == middle + [last + close];
  }

  lemma ConcatStrippedFrame(x: string, middle: seq<string>, y: string)
    ensures ConcatStripped([x] + middle + [y]) == Strip(x) + ConcatStripped(middle) + Strip(y)
  {
    ConcatStrippedAppend([x] + middle, [y]);
    ConcatStrippedAppend([x], middle);
    assert ConcatStripped([x]) == Strip(x) + ConcatStripped([]);
    assert ConcatStripped([y]) == Strip(y) + ConcatStripped([]);
  }

  lemma CollapseLineBroken(p: string, open: string, t: string, close: string)
    requires LStrip(p) == open && p != [] && !IsSpace(p[|p| - 1]) && '\n' !in p
    requires close != [] && !IsSpace(close[0]) && !IsSpace(close[|close| - 1]) && '\n' !in close
    requires NoSpaceAtEnds(t) && '\n' in t
    ensures Collapse(p + t + close) == open + Collapse(t) + close
  {
    var first, middle, last := SplitBroken(p, t, close);
    CollapseBySplit(p + t + close);
    CollapseBySplit(t);
    ConcatStrippedFrame(p + first, middle, last + close);
    ConcatStrippedFrame(first, middle, last);
    StripFirstPiece(p, open, first);
    StripLastPiece(last, close);
    var f, m, l := Strip(first), ConcatStripped(middle), Strip(last);
    Regroup5(open, f, m, l, close);
  }

  lemma Regroup5(a: string, b: string, c: string, d: string, e: string)
    ensures a + b + c + (d + e) == a + (b + c + d) + e
  {
  }

  /**
   * An indented template line `indent + open + t + close` collapses to
   * `open + Collapse(t) + close` when the interpolated `t` is itself
   * stripped: line breaks inside `t` are removed together with the
   * whitespace around them.
   */
  lemma CollapseLine(indent: string, open: string, t: string, close: string)
    requires AllSpace(indent) && '\n' !in indent && '\n' !in open && '\n' !in close
    requires open != [] && !IsSpace(open[0]) && !IsSpace(open[|open| - 1])
    requires close != [] && !IsSpace(close[0]) && !IsSpace(close[|close| - 1])
    requires NoSpaceAtEnds(t)
    ensures Collapse(indent + open + t + close) == open + Collapse(t) + close
  {
    var p := indent + open;
    assert '\n' !in p;
    assert p != [] && p[|p| - 1] == open[|open| - 1];
    LStripPadded(indent, open);
    assert indent + open + t + close == p + t + close;
    if '\n' in t {
      CollapseLineBroken(p, open, t, close);
    } else {
      CollapseLineFlat(p, open, t, close);
    }
  }

  /** A template line whose interpolated value has no line break keeps that value verbatim. */
  lemma CollapseLineVerbatim(indent: string, open: string, t: string, close: string)
    requires AllSpace(indent) && '\n' !in indent && '\n' !in open && '\n' !in close && '\n' !in t
    requires open != [] && !IsSpace(open[0]) && !IsSpace(open[|open| - 1])
    requires close != [] && !IsSpace(close[|close| - 1])
    ensures Collapse(indent + open + t + close) == open + t + close
  {
    var p := indent + open;
    assert '\n' !in p;
    assert p != [] && p[|p| - 1] == open[|open| - 1];
    LStripPadded(indent, open);
    assert indent + open + t + close == p + t + close;
    assert '\n' !in p + t + close;
    CollapseOneLine(p + t + close);
    StripAroundInside(p, open, t, close);
  }

  /** A template line holding only markup collapses to that markup. */
  lemma CollapseTag(indent: string, tag: string)
    requires AllSpace(indent) && '\n' !in indent && '\n' !in tag && NoSpaceAtEnds(tag)
    ensures Collapse(indent + tag) == tag
  {
    CollapseOneLine(indent + tag);
    StripPadded(indent, tag, []);
    assert indent + tag + [] == indent + tag;
  }

  lemma CollapseBlank(indent: string)
    requires AllSpace(indent) && '\n' !in indent
    ensures Collapse(indent) == []
  {
    CollapseOneLine(indent);
    AllSpaceStripsToEmpty(indent);
  }

  /** Each line of a template, collapsed on its own. */
  function CollapseEach(lines: seq<string>): (r: seq<string>)
    ensures |r| == |lines|
    ensures forall i :: 0 <= i < |lines| ==> r[i] == Collapse(lines[i])
  {
    if lines == [] then [] else [Collapse(lines[0])] + CollapseEach(lines[1..])
  }

  /** A template is its lines joined with line breaks; collapsing works line by line. */
  lemma {:induction false} CollapseJoin(lines: seq<string>)
    requires |lines| >= 1
    ensures Collapse(Join("\n", lines)) == Concat(CollapseEach(lines))
    decreases |lines|
  {
    if |lines| == 1 {
      assert Concat([Collapse(lines[0])]) == Collapse(lines[0]) + Concat([]);
    } else {
      CollapseJoin(lines[1..]);
      CollapseAtNewline(lines[0], Join("\n", lines[1..]));
    }
  }

  lemma CollapseJoin6(a: string, b: string, c: string, d: string, e: string, f: string)
    ensures Collapse(Join("\n", [a, b, c, d, e, f]))
      == Collapse(a) + (Collapse(b) + (Collapse(c) + (Collapse(d) + (Collapse(e) + Collapse(f)))))
  {
    var lines := [a, b, c, d, e, f];
    CollapseJoin(lines);
    var r := CollapseEach(lines);
    ConcatOfSix(r);
    assert r[0] == Collapse(a) && r[1] == Collapse(b) && r[2] == Collapse(c);
    assert r[3] == Collapse(d) && r[4] == Collapse(e) && r[5] == Collapse(f);
  }

  lemma CollapseJoin7(a: string, b: string, c: string, d: string, e: string, f: string, g: string)
    ensures Collapse(Join("\n", [a, b, c, d, e, f, g]))
      == Collapse(a) + (Collapse(b) + (Collapse(c) + (Collapse(d) + (Collapse(e) + (Collapse(f) + Collapse(g))))))
  {
    var lines := [a, b, c, d, e, f, g];
    assert lines[1..] == [b, c, d, e, f, g];
    assert Join("\n", lines) == a + "\n" + Join("\n", [b, c, d, e, f, g]);
    CollapseAtNewline(a, Join("\n", [b, c, d, e, f, g]));
    CollapseJoin6(b, c, d, e, f, g);
  }
}
