/** The seek command's time string, as `re.match` reads it with
    TIME_REGEX = ([0-9]{1,2})[:ms](([0-9]{1,2})s?)? : anchored at the start
    of the string, not at its end, with greedy one-or-two-digit groups. */
module Seek {
  import opened Errors

  predicate IsDigit(c: char)
  {
    '0' <= c <= '9'
  }

  function DigitValue(c: char): (d: nat)
    requires IsDigit(c)
    ensures d <= 9
  {
    (c as int) - ('0' as int)
  }

  /** The separator class `[:ms]`. */
  predicate IsSeparator(c: char)
  {
    c == ':' || c == 'm' || c == 's'
  }

  /** Groups 1 and 3 of a successful match: the leading number and, when
      the optional part matched, the number after the separator. */
  datatype TimeMatch = TimeMatch(lead: nat, seconds: Option<nat>)

  /** Group 3 read from the text after the separator: two digits if there
      are two, else one, else absent (the optional group matches nothing). */
  function SecondsGroup(rest: string): (g: Option<nat>)
    ensures g.Some? <==> rest != [] && IsDigit(rest[0])
    ensures g.Some? ==> g.value <= 99
    ensures |rest| >= 2 && IsDigit(rest[0]) && IsDigit(rest[1]) ==>
      g == Some(10 * DigitValue(rest[0]) + DigitValue(rest[1]))
    ensures rest != [] && IsDigit(rest[0]) && (|rest| == 1 || !IsDigit(rest[1])) ==>
      g == Some(DigitValue(rest[0]))
  {
    if |rest| >= 2 && IsDigit(rest[0]) && IsDigit(rest[1]) then
      Some(10 * DigitValue(rest[0]) + DigitValue(rest[1]))
    else if |rest| >= 1 && IsDigit(rest[0]) then
      Some(DigitValue(rest[0]))
    else None
  }

  /** `re.match(TIME_REGEX, text)`. Group 1 first tries two digits; if the
      third character is no separator it backs off to one digit, which then
      needs a separator as the second character. Nothing after group 3 can
      fail, so a match never backtracks into it. */
  function MatchTime(text: string): (m: Option<TimeMatch>)
    ensures m.Some? <==>
      |text| >= 2 && IsDigit(text[0]) &&
      (IsSeparator(text[1]) || (|text| >= 3 && IsDigit(text[1]) && IsSeparator(text[2])))
    ensures m.Some? ==> m.value.lead <= 99 && (m.value.seconds.Some? ==> m.value.seconds.value <= 99)
    ensures |text| >= 3 && IsDigit(text[0]) && IsDigit(text[1]) && IsSeparator(text[2]) ==>
      m == Some(TimeMatch(10 * DigitValue(text[0]) + DigitValue(text[1]), SecondsGroup(text[3..])))
    ensures |text| >= 2 && IsDigit(text[0]) && IsSeparator(text[1]) ==>
      m == Some(TimeMatch(DigitValue(text[0]), SecondsGroup(text[2..])))
  {
    if |text| >= 3 && IsDigit(text[0]) && IsDigit(text[1]) && IsSeparator(text[2]) then
      Some(TimeMatch(10 * DigitValue(text[0]) + DigitValue(text[1]), SecondsGroup(text[3..])))
    else if |text| >= 2 && IsDigit(text[0]) && IsSeparator(text[1]) then
      Some(TimeMatch(DigitValue(text[0]), SecondsGroup(text[2..])))
    else None
  }

  /** The seek target in milliseconds: with group 3, group 1 counts minutes;
      without it, group 1 counts seconds. */
  function TargetMillis(m: TimeMatch): nat
  {
    match m.seconds
    case Some(sec) => (m.lead * 60 + sec) * 1000
    case None => m.lead * 1000
  }

  /** The time string of `seek_command` as the milliseconds it seeks to. */
  function ParseSeek(text: string): (r: Result<nat>)
    ensures r.Err? <==> MatchTime(text).None?
    ensures r.Err? ==> r.error == InvalidTimeString
    ensures r.Ok? ==> r.value <= (99 * 60 + 99) * 1000
    ensures MatchTime(text).Some? && MatchTime(text).value.seconds.Some? ==>
      r == Ok((MatchTime(text).value.lead * 60 + MatchTime(text).value.seconds.value) * 1000)
    ensures MatchTime(text).Some? && MatchTime(text).value.seconds.None? ==>
      r == Ok(MatchTime(text).value.lead * 1000)
  {
    match MatchTime(text)
    case None => Err(InvalidTimeString)
    case Some(m) => Ok(TargetMillis(m))
  }

  /** The decimal digits of a number below 100, without padding. */
  function Digits(n: nat): (s: string)
    requires n < 100
    ensures 1 <= |s| <= 2 && forall i :: 0 <= i < |s| ==> IsDigit(s[i])
  {
    if n < 10 then [Digit(n)] else [Digit(n / 10), Digit(n % 10)]
  }

  /** Two decimal digits, zero-padded. */
  function Padded(n: nat): (s: string)
    requires n < 100
    ensures |s| == 2 && IsDigit(s[0]) && IsDigit(s[1])
  {
    [Digit(n / 10), Digit(n % 10)]
  }

  function Digit(d: nat): (c: char)
    requires d < 10
    ensures IsDigit(c) && DigitValue(c) == d
  {
    ('0' as int + d) as char
  }

  /** "M:SS", "MmSS" or "MsSS" seeks to M minutes and SS seconds, whatever
      text follows. */
  lemma MinutesSecondsRoundTrip(minutes: nat, sep: char, seconds: nat, rest: string)
    requires minutes < 100 && seconds < 100 && IsSeparator(sep)
    ensures ParseSeek(Digits(minutes) + [sep] + Padded(seconds) + rest) == Ok((minutes * 60 + seconds) * 1000)
  {
    var text := Digits(minutes) + [sep] + Padded(seconds) + rest;
    var d := Digits(minutes);
    var k := |d| + 1;
    assert text[|d|] == sep;
    assert text[k..][0] == Padded(seconds)[0] && text[k..][1] == Padded(seconds)[1];
    if |d| == 2 {
      assert text[0] == d[0] && text[1] == d[1];
    } else {
      assert text[0] == d[0];
    }
  }

  /** Seconds written without padding, as in "1:5" or "1m30s": one seconds
      digit is read alone when no further digit follows it. */
  lemma UnpaddedMinutesSecondsRoundTrip(minutes: nat, sep: char, seconds: nat, rest: string)
    requires minutes < 100 && seconds < 100 && IsSeparator(sep)
    requires rest == [] || !IsDigit(rest[0]) || seconds >= 10
    ensures ParseSeek(Digits(minutes) + [sep] + Digits(seconds) + rest) == Ok((minutes * 60 + seconds) * 1000)
  {
    var text := Digits(minutes) + [sep] + Digits(seconds) + rest;
    var d := Digits(minutes);
    var e := Digits(seconds);
    var k := |d| + 1;
    assert text[|d|] == sep;
    assert text[k..] == e + rest;
    if |e| == 2 {
      assert text[k..][0] == e[0] && text[k..][1] == e[1];
    } else {
      assert text[k..][0] == e[0];
      assert |text[k..]| >= 2 ==> text[k..][1] == rest[0];
    }
    if |d| == 2 {
      assert text[0] == d[0] && text[1] == d[1];
    } else {
      assert text[0] == d[0];
    }
  }

  /** "Ns" seeks to N seconds when no digit follows. */
  lemma SecondsRoundTrip(seconds: nat, rest: string)
    requires seconds < 100
    requires rest == [] || !IsDigit(rest[0])
    ensures ParseSeek(Digits(seconds) + "s" + rest) == Ok(seconds * 1000)
  {
    var text := Digits(seconds) + "s" + rest;
    var d := Digits(seconds);
    assert text[|d|] == 's';
    assert text[|d| + 1..] == rest;
    if |d| == 2 {
      assert text[0] == d[0] && text[1] == d[1];
    } else {
      assert text[0] == d[0];
    }
  }

  /** A digit right after "Ns" is read as group 3, so "5s30" means 5:30. */
  lemma DigitAfterSecondsMeansMinutes()
    ensures ParseSeek("5s30") == Ok(330000)
    ensures ParseSeek("1:") == Ok(1000)
    ensures ParseSeek("123") == Err(InvalidTimeString)
    ensures ParseSeek("1m30s") == Ok(90000)
    ensures ParseSeek("1:5") == Ok(65000)
  {
    assert MatchTime("5s30") == Some(TimeMatch(5, Some(30)));
    assert MatchTime("1:") == Some(TimeMatch(1, None));
    assert MatchTime("1m30s") == Some(TimeMatch(1, Some(30)));
    assert MatchTime("1:5") == Some(TimeMatch(1, Some(5)));
  }
}
