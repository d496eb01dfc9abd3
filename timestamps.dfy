/**
 * `seconds_to_timestamp(seconds)`: `str(datetime.timedelta(seconds=int(seconds)))`.
 * `int()` truncates toward zero; the timedelta is normalised to days and a
 * non-negative remainder below one day, and printed as `H:MM:SS`, preceded
 * by `"<d> day, "` or `"<d> days, "` when the day count is not zero.
 */
module Timestamps {
  import opened Wrappers
  import opened Text

  const SecondsPerDay: int := 86400

  /** Python `int(x)` for a float: truncation toward zero. */
  function Trunc(x: real): (n: int)
    ensures x >= 0.0 ==> n as real <= x < n as real + 1.0
    ensures x < 0.0 ==> n as real - 1.0 < x <= n as real
  {
    if x >= 0.0 then x.Floor else -((-x).Floor)
  }

  /** `H:MM:SS` for a number of seconds within one day; the hours are not padded. */
  function Clock(secs: nat): string
    requires secs < SecondsPerDay
  {
    Join(":", [NatToString(secs / 3600), Pad2(secs / 60 % 60), Pad2(secs % 60)])
  }

  /** The `"<d> day, "` / `"<d> days, "` prefix; singular exactly when `abs(d) == 1`. */
  function DayLabel(days: int): string {
    IntToString(days) + " day" + (if days == 1 || days == -1 then "" else "s")
  }

  /** `str(timedelta(seconds=n))` for a whole number of seconds. */
  function TimedeltaString(n: int): string {
    var days := n / SecondsPerDay;
    var rest := n % SecondsPerDay;
    if days == 0 then Clock(rest) else DayLabel(days) + ", " + Clock(rest)
  }

  /** `seconds_to_timestamp`: the timestamp reads back to the truncated number of seconds. */
  function SecondsToTimestamp(seconds: real): (r: string)
    ensures ParseTimedelta(r) == Some(Trunc(seconds))
  {
    TimedeltaRoundTrip(Trunc(seconds));
    TimedeltaString(Trunc(seconds))
  }

  // ---------------------------------------------------------------- reading a timestamp back

  /** Reads `H:MM:SS` back to seconds. */
  function ParseClock(s: string): Option<int> {
    var parts := Split(s, ':');
    if |parts| == 3 && parts[0] != [] && AllDigits(parts[0])
      && |parts[1]| == 2 && AllDigits(parts[1]) && |parts[2]| == 2 && AllDigits(parts[2])
    then Some(DigitsValue(parts[0]) * 3600 + DigitsValue(parts[1]) * 60 + DigitsValue(parts[2]))
    else None
  }

  /** Reads a rendered timedelta back to seconds. */
  function ParseTimedelta(s: string): Option<int> {
    var halves := Split(s, ',');
    if |halves| == 1 then ParseClock(s)
    else if |halves| == 2 && halves[1] != [] && halves[1][0] == ' ' then
      var words := Split(halves[0], ' ');
      var clock := ParseClock(halves[1][1..]);
      if |words| == 2 && (words[1] == "day" || words[1] == "days") && ParseInt(words[0]).Some? && clock.Some? then
        Some(ParseInt(words[0]).value * SecondsPerDay + clock.value)
      else None
    else None
  }

  lemma NoSepInNumber(s: string, c: char)
    requires AllDigits(s) && !IsDigit(c)
    ensures c !in s
  {
    forall i | 0 <= i < |s|
      ensures s[i] != c
    {
      assert IsDigit(s[i]);
    }
  }

  /** Hours, minutes and seconds add back up to the seconds they were taken from. */
  lemma ClockArithmetic(secs: nat)
    ensures secs / 3600 * 3600 + secs / 60 % 60 * 60 + secs % 60 == secs
  {
    var m := secs / 60;
    assert secs == m * 60 + secs % 60;
    assert m == m / 60 * 60 + m % 60;
    assert secs / 3600 == m / 60;
  }

  lemma ClockRoundTrip(secs: nat)
    requires secs < SecondsPerDay
    ensures ParseClock(Clock(secs)) == Some(secs)
    ensures ',' !in Clock(secs) && ' ' !in Clock(secs)
  {
    var h, m, s := NatToString(secs / 3600), Pad2(secs / 60 % 60), Pad2(secs % 60);
    NoSepInNumber(h, ':');
    NoSepInNumber(m, ':');
    NoSepInNumber(s, ':');
    SplitJoin([h, m, s], ':');
    var parts := Split(Clock(secs), ':');
    assert parts == [h, m, s];
    NatToStringRoundTrip(secs / 3600);
    Pad2RoundTrip(secs / 60 % 60);
    Pad2RoundTrip(secs % 60);
    assert DigitsValue(h) * 3600 + DigitsValue(m) * 60 + DigitsValue(s) == secs by {
      ClockArithmetic(secs);
    }
    Join3(":", h, m, s);
    NoSepInNumber(h, ',');
    NoSepInNumber(m, ',');
    NoSepInNumber(s, ',');
    NoSepInNumber(h, ' ');
    NoSepInNumber(m, ' ');
    NoSepInNumber(s, ' ');
  }

  lemma DayLabelWords(days: int)
    ensures ',' !in DayLabel(days)
    ensures Split(DayLabel(days), ' ') == [IntToString(days), "day" + (if days == 1 || days == -1 then "" else "s")]
  {
    var num := IntToString(days);
    var word := "day" + (if days == 1 || days == -1 then "" else "s");
    assert DayLabel(days) == num + [' '] + word;
    if days < 0 {
      NoSepInNumber(num[1..], ' ');
      NoSepInNumber(num[1..], ',');
      assert num == "-" + num[1..];
    } else {
      NoSepInNumber(num, ' ');
      NoSepInNumber(num, ',');
    }
    assert ' ' !in word && ',' !in word;
    SplitJoin([num, word], ' ');
  }

  lemma WithDaysRoundTrip(days: int, rest: nat)
    requires days != 0 && rest < SecondsPerDay
    ensures ParseTimedelta(DayLabel(days) + ", " + Clock(rest)) == Some(days * SecondsPerDay + rest)
  {
    var clock := Clock(rest);
    ClockRoundTrip(rest);
    var dayPart := DayLabel(days);
    DayLabelWords(days);
    ParseIntRoundTrip(days);
    var tail := " " + clock;
    var s := dayPart + ", " + clock;
    assert ',' !in tail;
    SplitJoin([dayPart, tail], ',');
    Join2(",", dayPart, tail);
    assert s == dayPart + "," + tail;
    var halves := Split(s, ',');
    assert halves == [dayPart, tail];
    assert halves[1][1..] == clock;
  }

  /** The rendering loses nothing: every whole number of seconds can be read back from its timestamp. */
  lemma TimedeltaRoundTrip(n: int)
    ensures ParseTimedelta(TimedeltaString(n)) == Some(n)
  {
    var days := n / SecondsPerDay;
    var rest := n % SecondsPerDay;
    assert days * SecondsPerDay + rest == n;
    if days == 0 {
      assert TimedeltaString(n) == Clock(rest);
      ClockRoundTrip(rest);
      SplitNoSep(Clock(rest), ',');
    } else {
      assert TimedeltaString(n) == DayLabel(days) + ", " + Clock(rest);
      WithDaysRoundTrip(days, rest);
    }
  }

  /** A timestamp is made of digits, `:`, `,`, `-`, spaces and the letters of "day"/"days". */
  lemma TimestampAvoids(n: int, c: char)
    requires !IsDigit(c) && c != ':' && c != ',' && c != ' ' && c != '-'
    requires c != 'd' && c != 'a' && c != 'y' && c != 's'
    ensures c !in TimedeltaString(n)
  {
    var days := n / SecondsPerDay;
    var rest := n % SecondsPerDay;
    var h, m, s := NatToString(rest / 3600), Pad2(rest / 60 % 60), Pad2(rest % 60);
    Join3(":", h, m, s);
    NoSepInNumber(h, c);
    NoSepInNumber(m, c);
    NoSepInNumber(s, c);
    if days != 0 {
      var num := IntToString(days);
      if days < 0 {
        NoSepInNumber(num[1..], c);
        assert num == "-" + num[1..];
      } else {
        NoSepInNumber(num, c);
      }
    }
  }

  /** A timestamp is one word-like run: no line break and no whitespace at either end. */
  lemma TimestampIsTight(n: int)
    ensures NoSpaceAtEnds(TimedeltaString(n)) && '\n' !in TimedeltaString(n)
  {
    TimestampAvoids(n, '\n');
    var days := n / SecondsPerDay;
    var rest := n % SecondsPerDay;
    var h, m, s := NatToString(rest / 3600), Pad2(rest / 60 % 60), Pad2(rest % 60);
    var clock := Clock(rest);
    Join3(":", h, m, s);
    assert IsDigit(s[1]) && clock[|clock| - 1] == s[1];
    assert IsDigit(h[0]) && clock[0] == h[0];
    if days != 0 {
      var num := IntToString(days);
      var full := DayLabel(days) + ", " + clock;
      assert full[0] == num[0];
      assert full[|full| - 1] == clock[|clock| - 1];
    }
  }
}
