/**
 * The reviver `jsonDateReviver` handed to `JSON.parse`: a string whose whole
 * text has the shape of an ISO 8601 calendar date, optionally followed by a
 * time of day and a zone designator, becomes a Date; every other value is
 * returned as it is.
 *
 * The pattern is written twice: once as a regular-expression term
 * (`IsoPattern`, transcribed group by group), once as a hand-written
 * character matcher (`MatchIso`). `MatchIsoCorrect` proves the two accept the
 * same strings. The Date itself is only a tag: `Revived(text)`.
 */
module JsonDateParsing {
  import opened Patterns
  import opened JsValues

  // ---------------------------------------------------------------------------
  // Character classes of the pattern

  /** `\d`: without the `u` flag it is the ASCII digits only. */
  const Digits: set<char> := {'0', '1', '2', '3', '4', '5', '6', '7', '8', '9'}
  const NonZeroDigits: set<char> := {'1', '2', '3', '4', '5', '6', '7', '8', '9'}
  const SixtyTens: set<char> := {'0', '1', '2', '3', '4', '5'}

  /** `\s`: the WhiteSpace and LineTerminator code points of ECMAScript. */
  const JsWhitespace: set<char> := {
    '\t', '\n', '\U{000B}', '\U{000C}', '\r', ' ', '\U{00A0}', '\U{1680}',
    '\U{2000}', '\U{2001}', '\U{2002}', '\U{2003}', '\U{2004}', '\U{2005}',
    '\U{2006}', '\U{2007}', '\U{2008}', '\U{2009}', '\U{200A}',
    '\U{2028}', '\U{2029}', '\U{202F}', '\U{205F}', '\U{3000}', '\U{FEFF}'}

  /** `[T\s]`: what may stand between the date and the time. */
  const DateTimeSeparators: set<char> := {'T'} + JsWhitespace

  // ---------------------------------------------------------------------------
  // The pattern as a term

  const DigitP: Regex := Class(Digits)
  /** `\d{4}` */
  const YearP: Regex := Word([Digits, Digits, Digits, Digits])
  /** `(0[1-9]|1[0-2])` */
  const MonthP: Regex := Alt(Word([{'0'}, NonZeroDigits]), Word([{'1'}, {'0', '1', '2'}]))
  /** `([12]\d|0[1-9]|3[01])` */
  const DayP: Regex :=
    Alt(Alt(Word([{'1', '2'}, Digits]), Word([{'0'}, NonZeroDigits])), Word([{'3'}, {'0', '1'}]))
  /** `([01]\d|2[0-3])` */
  const HourP: Regex := Alt(Word([{'0', '1'}, Digits]), Word([{'2'}, {'0', '1', '2', '3'}]))
  /** `[0-5]\d`, used for minutes and seconds alike */
  const SixtyP: Regex := Word([SixtyTens, Digits])
  /** `(([01]\d|2[0-3])\:[0-5]\d|24\:00)` */
  const HourMinuteP: Regex :=
    Alt(Cat(HourP, Cat(Lit(':'), SixtyP)), Word([{'2'}, {'4'}, {':'}, {'0'}, {'0'}]))
  /** `[\.,]\d+` */
  const FractionP: Regex := Cat(Class({'.', ','}), Plus(DigitP))
  /** `\:[0-5]\d([\.,]\d+)?` */
  const SecondsP: Regex := Cat(Lit(':'), Cat(SixtyP, Opt(FractionP)))
  /** `[zZ]|([\+-])([01]\d|2[0-3])\:?([0-5]\d)?` */
  const ZoneP: Regex :=
    Alt(Class({'z', 'Z'}), Cat(Class({'+', '-'}), Cat(HourP, Cat(Opt(Lit(':')), Opt(SixtyP)))))
  /** `[T\s]` hour-minute, optional seconds, optional zone */
  const TimeP: Regex :=
    Cat(Class(DateTimeSeparators), Cat(HourMinuteP, Cat(Opt(SecondsP), Opt(ZoneP))))
  /** The day and the optional time: `([12]\d|0[1-9]|3[01])( ... )?` */
  const DayTimeP: Regex := Cat(DayP, Opt(TimeP))
  /** From the month on: `-MM-DD` and the optional time */
  const MonthOnP: Regex := Cat(Lit('-'), Cat(MonthP, Cat(Lit('-'), DayTimeP)))
  /** The whole pattern, between `^` and `$`. */
  const IsoPattern: Regex := Cat(YearP, MonthOnP)

  // ---------------------------------------------------------------------------
  // The hand-written matcher

  predicate IsDigit(c: char)
  {
    '0' <= c <= '9'
  }

  /** 01 to 12 */
  predicate MonthOk(a: char, b: char)
  {
    (a == '0' && '1' <= b <= '9') || (a == '1' && '0' <= b <= '2')
  }

  /** 01 to 31, whatever the month */
  predicate DayOk(a: char, b: char)
  {
    ((a == '1' || a == '2') && IsDigit(b)) || (a == '0' && '1' <= b <= '9') || (a == '3' && (b == '0' || b == '1'))
  }

  /** 00 to 23 */
  predicate HourOk(a: char, b: char)
  {
    ((a == '0' || a == '1') && IsDigit(b)) || (a == '2' && '0' <= b <= '3')
  }

  /** 00 to 59 */
  predicate SixtyOk(a: char, b: char)
  {
    '0' <= a <= '5' && IsDigit(b)
  }

  predicate IsDateTimeSeparator(c: char)
  {
    c == 'T' || c in JsWhitespace
  }

  predicate MatchIso(s: string)
  {
    && |s| >= 10
    && IsDigit(s[0]) && IsDigit(s[1]) && IsDigit(s[2]) && IsDigit(s[3])
    && s[4] == '-' && MonthOk(s[5], s[6])
    && s[7] == '-' && DayOk(s[8], s[9])
    && MatchTimeTail(s[10..])
  }

  /** Everything after the date: nothing, or a separator, hh:mm and the rest. */
  predicate MatchTimeTail(t: string)
  {
    |t| == 0 || (|t| >= 6 && IsDateTimeSeparator(t[0]) && MatchHourMinute(t[1..6]) && MatchAfterMinutes(t[6..]))
  }

  predicate MatchHourMinute(h: string)
    requires |h| == 5
  {
    (HourOk(h[0], h[1]) && h[2] == ':' && SixtyOk(h[3], h[4])) || h == "24:00"
  }

  /** After hh:mm: seconds introduced by ':', or straight to the zone. */
  predicate MatchAfterMinutes(u: string)
  {
    if |u| > 0 && u[0] == ':' then |u| >= 3 && SixtyOk(u[1], u[2]) && MatchAfterSeconds(u[3..])
    else MatchZone(u)
  }

  /** After the seconds: a fraction introduced by '.' or ',', or straight to the zone. */
  predicate MatchAfterSeconds(v: string)
  {
    if |v| > 0 && (v[0] == '.' || v[0] == ',') then MatchFraction(v[1..]) else MatchZone(v)
  }

  /** At least one fraction digit, then the zone. */
  predicate MatchFraction(w: string)
  {
    var n := DigitRun(w);
    n >= 1 && MatchZone(w[n..])
  }

  /** The length of the longest prefix of w made of digits. */
  function DigitRun(w: string): (n: nat)
    ensures n <= |w|
    ensures forall i :: 0 <= i < n ==> IsDigit(w[i])
    ensures n < |w| ==> !IsDigit(w[n])
  {
    if |w| > 0 && IsDigit(w[0]) then 1 + DigitRun(w[1..]) else 0
  }

  /** No zone, 'z' or 'Z', or a signed hour with an optional ':' and optional minutes. */
  predicate MatchZone(z: string)
  {
    || |z| == 0
    || (|z| == 1 && (z[0] == 'z' || z[0] == 'Z'))
    || (|z| >= 3 && (z[0] == '+' || z[0] == '-') && HourOk(z[1], z[2]) && MatchZoneMinutes(z[3..]))
  }

  predicate MatchZoneMinutes(r: string)
  {
    || |r| == 0
    || r == ":"
    || (|r| == 2 && SixtyOk(r[0], r[1]))
    || (|r| == 3 && r[0] == ':' && SixtyOk(r[1], r[2]))
  }

  // ---------------------------------------------------------------------------
  // The matcher accepts exactly the language of the pattern

  lemma YearPattern(w: string)
    ensures Matches(YearP, w) <==> |w| == 4 && IsDigit(w[0]) && IsDigit(w[1]) && IsDigit(w[2]) && IsDigit(w[3])
  {
    WordMatches([Digits, Digits, Digits, Digits], w);
  }

  lemma MonthPattern(w: string)
    ensures Matches(MonthP, w) <==> |w| == 2 && MonthOk(w[0], w[1])
  {
    WordMatches([{'0'}, NonZeroDigits], w);
    WordMatches([{'1'}, {'0', '1', '2'}], w);
  }

  lemma DayPattern(w: string)
    ensures Matches(DayP, w) <==> |w| == 2 && DayOk(w[0], w[1])
  {
    WordMatches([{'1', '2'}, Digits], w);
    WordMatches([{'0'}, NonZeroDigits], w);
    WordMatches([{'3'}, {'0', '1'}], w);
  }

  lemma HourPattern(w: string)
    ensures Matches(HourP, w) <==> |w| == 2 && HourOk(w[0], w[1])
  {
    WordMatches([{'0', '1'}, Digits], w);
    WordMatches([{'2'}, {'0', '1', '2', '3'}], w);
  }

  lemma SixtyPattern(w: string)
    ensures Matches(SixtyP, w) <==> |w| == 2 && SixtyOk(w[0], w[1])
  {
    WordMatches([SixtyTens, Digits], w);
  }

  lemma HourMinutePattern(w: string)
    ensures Matches(HourMinuteP, w) <==> |w| == 5 && MatchHourMinute(w)
  {
    ClockPattern(w);
    MidnightPattern(w);
  }

  /** `([01]\d|2[0-3])\:[0-5]\d` */
  lemma ClockPattern(w: string)
    ensures Matches(Cat(HourP, Cat(Lit(':'), SixtyP)), w) <==>
      |w| == 5 && HourOk(w[0], w[1]) && w[2] == ':' && SixtyOk(w[3], w[4])
  {
    CatFixed(HourP, Cat(Lit(':'), SixtyP), w);
    if |w| >= 2 {
      HourPattern(w[..2]);
      CatFixed(Lit(':'), SixtyP, w[2..]);
      if |w| >= 3 {
        SixtyPattern(w[3..]);
        assert w[2..][1..] == w[3..];
      }
    }
  }

  /** `24\:00` */
  lemma MidnightPattern(w: string)
    ensures Matches(Word([{'2'}, {'4'}, {':'}, {'0'}, {'0'}]), w) <==> w == "24:00"
  {
    WordMatches([{'2'}, {'4'}, {':'}, {'0'}, {'0'}], w);
    if |w| == 5 && w[0] == '2' && w[1] == '4' && w[2] == ':' && w[3] == '0' && w[4] == '0' {
      assert w == "24:00";
    }
  }

  lemma ZoneMinutesPattern(r: string)
    ensures Matches(Cat(Opt(Lit(':')), Opt(SixtyP)), r) <==> MatchZoneMinutes(r)
  {
    CatOpt(Lit(':'), Opt(SixtyP), r);
    CatFixed(Lit(':'), Opt(SixtyP), r);
    SixtyPattern(r);
    if |r| >= 1 {
      SixtyPattern(r[1..]);
    }
  }

  lemma ZonePattern(z: string)
    ensures Matches(Opt(ZoneP), z) <==> MatchZone(z)
  {
    var signed := Cat(HourP, Cat(Opt(Lit(':')), Opt(SixtyP)));
    assert Matches(Opt(ZoneP), z) <==>
      |z| == 0 || Matches(Class({'z', 'Z'}), z) || Matches(Cat(Class({'+', '-'}), signed), z);
    CatFixed(Class({'+', '-'}), signed, z);
    if |z| >= 1 {
      var y := z[1..];
      TimeWidths();
      CatFixed(HourP, Cat(Opt(Lit(':')), Opt(SixtyP)), y);
      if |y| >= 2 {
        assert y[2..] == z[3..];
        assert y[..2][0] == z[1] && y[..2][1] == z[2];
        HourPattern(y[..2]);
        ZoneMinutesPattern(y[2..]);
        assert Matches(signed, y) <==> HourOk(z[1], z[2]) && MatchZoneMinutes(z[3..]);
      } else {
        assert !Matches(signed, y);
      }
      assert Matches(Cat(Class({'+', '-'}), signed), z) <==>
        (z[0] == '+' || z[0] == '-') && |z| >= 3 && HourOk(z[1], z[2]) && MatchZoneMinutes(z[3..]);
    }
  }

  /** A zone never starts with a digit, ':', '.' or ','. */
  lemma ZoneStart(z: string)
    requires MatchZone(z) && |z| > 0
    ensures z[0] in {'z', 'Z', '+', '-'}
  {
  }

  /** DigitRun is the only split into a digit prefix and a rest not starting with a digit. */
  lemma {:induction false} DigitRunUnique(w: string, k: nat)
    requires k <= |w| && forall i :: 0 <= i < k ==> IsDigit(w[i])
    requires k < |w| ==> !IsDigit(w[k])
    ensures DigitRun(w) == k
  {
    if k > 0 {
      DigitRunUnique(w[1..], k - 1);
    }
  }

  lemma FractionDigitsPattern(w: string)
    ensures Matches(Cat(Plus(DigitP), Opt(ZoneP)), w) <==> MatchFraction(w)
  {
    var n := DigitRun(w);
    if Matches(Cat(Plus(DigitP), Opt(ZoneP)), w) {
      var x, y := CatParts(Plus(DigitP), Opt(ZoneP), w);
      PlusClass(Digits, x);
      ZonePattern(y);
      assert forall i :: 0 <= i < |x| ==> IsDigit(w[i]) by {
        forall i | 0 <= i < |x| ensures IsDigit(w[i]) {
          assert w[i] == x[i];
        }
      }
      if |y| > 0 {
        ZoneStart(y);
        assert w[|x|] == y[0];
      }
      DigitRunUnique(w, |x|);
      assert w[n..] == y;
    }
    if MatchFraction(w) {
      PlusClass(Digits, w[..n]);
      ZonePattern(w[n..]);
      CatOfConcat(Plus(DigitP), Opt(ZoneP), w[..n], w[n..]);
      assert w[..n] + w[n..] == w;
    }
  }

  lemma AfterSecondsPattern(v: string)
    ensures Matches(Cat(Opt(FractionP), Opt(ZoneP)), v) <==> MatchAfterSeconds(v)
  {
    CatOpt(FractionP, Opt(ZoneP), v);
    CatAssoc(Class({'.', ','}), Plus(DigitP), Opt(ZoneP), v);
    CatFixed(Class({'.', ','}), Cat(Plus(DigitP), Opt(ZoneP)), v);
    ZonePattern(v);
    if |v| >= 1 {
      FractionDigitsPattern(v[1..]);
    }
    if |v| > 0 && MatchZone(v) {
      ZoneStart(v);
    }
  }

  lemma AfterMinutesPattern(u: string)
    ensures Matches(Cat(Opt(SecondsP), Opt(ZoneP)), u) <==> MatchAfterMinutes(u)
  {
    var tail := Cat(Opt(FractionP), Opt(ZoneP));
    CatOpt(SecondsP, Opt(ZoneP), u);
    CatAssoc(Lit(':'), Cat(SixtyP, Opt(FractionP)), Opt(ZoneP), u);
    CatFixed(Lit(':'), Cat(Cat(SixtyP, Opt(FractionP)), Opt(ZoneP)), u);
    ZonePattern(u);
    if |u| >= 1 {
      var x := u[1..];
      CatAssoc(SixtyP, Opt(FractionP), Opt(ZoneP), x);
      CatFixed(SixtyP, tail, x);
      if |x| >= 2 {
        SixtyPattern(x[..2]);
        AfterSecondsPattern(x[2..]);
        assert x[2..] == u[3..];
      }
    }
    if |u| > 0 && MatchZone(u) {
      ZoneStart(u);
    }
  }

  /** The fixed-width parts of the time. */
  lemma TimeWidths()
    ensures WidthOf(HourP) == Fixed(2) && WidthOf(SixtyP) == Fixed(2)
    ensures WidthOf(HourMinuteP) == Fixed(5)
  {
    assert WidthOf(Lit(':')) == Fixed(1);
    assert WidthOf(Cat(Lit(':'), SixtyP)) == Fixed(3);
    assert WidthOf(Cat(HourP, Cat(Lit(':'), SixtyP))) == Fixed(5);
  }

  lemma TimePattern(t: string)
    ensures Matches(Opt(TimeP), t) <==> MatchTimeTail(t)
  {
    TimeWidths();
    var rest := Cat(HourMinuteP, Cat(Opt(SecondsP), Opt(ZoneP)));
    CatFixed(Class(DateTimeSeparators), rest, t);
    if |t| >= 1 {
      var x := t[1..];
      CatFixed(HourMinuteP, Cat(Opt(SecondsP), Opt(ZoneP)), x);
      if |x| >= 5 {
        HourMinutePattern(x[..5]);
        AfterMinutesPattern(x[5..]);
        assert x[..5] == t[1..6] && x[5..] == t[6..];
      }
    }
  }

  lemma DayTimePattern(t: string)
    ensures Matches(DayTimeP, t) <==>
      |t| >= 2 && DayOk(t[0], t[1]) && MatchTimeTail(t[2..])
  {
    CatFixed(DayP, Opt(TimeP), t);
    if |t| >= 2 {
      DayPattern(t[..2]);
      TimePattern(t[2..]);
    }
  }

  lemma DashDayTimePattern(t: string)
    ensures Matches(Cat(Lit('-'), DayTimeP), t) <==>
      |t| >= 3 && t[0] == '-' && DayOk(t[1], t[2]) && MatchTimeTail(t[3..])
  {
    CatFixed(Lit('-'), DayTimeP, t);
    if |t| >= 1 {
      DayTimePattern(t[1..]);
      if |t| >= 3 {
        assert t[1..][2..] == t[3..];
      }
    }
  }

  lemma MonthDayTimePattern(t: string)
    ensures Matches(Cat(MonthP, Cat(Lit('-'), DayTimeP)), t) <==>
      |t| >= 5 && MonthOk(t[0], t[1]) && t[2] == '-' && DayOk(t[3], t[4]) && MatchTimeTail(t[5..])
  {
    CatFixed(MonthP, Cat(Lit('-'), DayTimeP), t);
    if |t| >= 2 {
      MonthPattern(t[..2]);
      DashDayTimePattern(t[2..]);
      if |t| >= 5 {
        assert t[2..][3..] == t[5..];
      }
    }
  }

  lemma DashMonthDayTimePattern(t: string)
    ensures Matches(MonthOnP, t) <==>
      && |t| >= 6 && t[0] == '-' && MonthOk(t[1], t[2]) && t[3] == '-' && DayOk(t[4], t[5])
      && MatchTimeTail(t[6..])
  {
    CatFixed(Lit('-'), Cat(MonthP, Cat(Lit('-'), DayTimeP)), t);
    if |t| >= 1 {
      MonthDayTimePattern(t[1..]);
      if |t| >= 6 {
        assert t[1..][5..] == t[6..];
      }
    }
  }

  /** The hand-written matcher accepts exactly the strings of the pattern. */
  lemma {:induction false} MatchIsoCorrect(s: string)
    ensures MatchIso(s) <==> Matches(IsoPattern, s)
  {
    CatFixed(YearP, MonthOnP, s);
    if |s| >= 4 {
      YearPattern(s[..4]);
      DashMonthDayTimePattern(s[4..]);
      if |s| >= 10 {
        assert s[4..][6..] == s[10..];
      }
    }
  }

  // ---------------------------------------------------------------------------
  // The reviver

  /** What the reviver hands back to `JSON.parse`: the value itself, or a Date made from the text. */
  datatype Revival = Unchanged(value: Value) | Revived(text: string)

  /**
   * jsonDateReviver(key, value): a string that matches the pattern becomes a
   * Date; anything else, strings that do not match included, is returned as
   * it is. The key takes no part.
   */
  function JsonDateReviver(key: string, value: Value): (r: Revival)
    ensures !value.Str? ==> r == Unchanged(value)
    ensures r.Revived? ==> value.Str? && r.text == value.s
    ensures r.Unchanged? ==> r.value == value
  {
    if value.Str? && MatchIso(value.s) then Revived(value.s) else Unchanged(value)
  }

  /** A value is revived exactly when it is a string the anchored pattern matches. */
  lemma RevivedIffMatches(key: string, value: Value)
    ensures JsonDateReviver(key, value).Revived? <==> value.Str? && Matches(IsoPattern, value.s)
  {
    if value.Str? {
      MatchIsoCorrect(value.s);
    }
  }

  /** The key never changes the outcome. */
  lemma KeyIgnored(key1: string, key2: string, value: Value)
    ensures JsonDateReviver(key1, value) == JsonDateReviver(key2, value)
  {
  }

  /** The numeric value of two decimal digits. */
  function TwoDigitValue(a: char, b: char): int
  {
    10 * (a as int - '0' as int) + (b as int - '0' as int)
  }

  predicate AreDigits(a: char, b: char)
  {
    IsDigit(a) && IsDigit(b)
  }

  lemma MonthOkMeans(a: char, b: char)
    ensures MonthOk(a, b) <==> AreDigits(a, b) && 1 <= TwoDigitValue(a, b) <= 12
  {
  }

  lemma DayOkMeans(a: char, b: char)
    ensures DayOk(a, b) <==> AreDigits(a, b) && 1 <= TwoDigitValue(a, b) <= 31
  {
  }

  lemma HourOkMeans(a: char, b: char)
    ensures HourOk(a, b) <==> AreDigits(a, b) && 0 <= TwoDigitValue(a, b) <= 23
  {
  }

  lemma SixtyOkMeans(a: char, b: char)
    ensures SixtyOk(a, b) <==> AreDigits(a, b) && 0 <= TwoDigitValue(a, b) <= 59
  {
  }

  /** `YYYY-MM-DD` with digits throughout, month 01 to 12 and day 01 to 31. */
  predicate IsCalendarDate(d: string)
  {
    && |d| == 10
    && IsDigit(d[0]) && IsDigit(d[1]) && IsDigit(d[2]) && IsDigit(d[3])
    && d[4] == '-' && d[7] == '-'
    && AreDigits(d[5], d[6]) && 1 <= TwoDigitValue(d[5], d[6]) <= 12
    && AreDigits(d[8], d[9]) && 1 <= TwoDigitValue(d[8], d[9]) <= 31
  }

  /**
   * A bare calendar date is revived, because the whole time part is optional;
   * and every revived string starts with one. The day is not checked against
   * the length of the month.
   */
  lemma CalendarDateRevived(key: string, s: string)
    ensures |s| == 10 ==> (JsonDateReviver(key, Str(s)).Revived? <==> IsCalendarDate(s))
    ensures JsonDateReviver(key, Str(s)).Revived? ==> |s| >= 10 && IsCalendarDate(s[..10])
  {
    if |s| >= 10 {
      MonthOkMeans(s[5], s[6]);
      DayOkMeans(s[8], s[9]);
      assert |s| == 10 ==> s[10..] == [];
    }
  }

  /**
   * What follows a date, when anything does: 'T' or one whitespace character,
   * then hours 00 to 23 and minutes 00 to 59, or exactly 24:00.
   */
  lemma TimeOfDayRevived(key: string, s: string)
    requires JsonDateReviver(key, Str(s)).Revived? && |s| > 10
    ensures |s| >= 16 && (s[10] == 'T' || s[10] in JsWhitespace)
    ensures || (AreDigits(s[11], s[12]) && TwoDigitValue(s[11], s[12]) <= 23 && s[13] == ':'
                && AreDigits(s[14], s[15]) && TwoDigitValue(s[14], s[15]) <= 59)
            || s[11..16] == "24:00"
  {
    var t := s[10..];
    assert t[1..6] == s[11..16];
    HourOkMeans(s[11], s[12]);
    SixtyOkMeans(s[14], s[15]);
  }

  /** The characters any revived string is written in. */
  const IsoAlphabet: set<char> := Digits + {'-', ':', '.', ',', 'z', 'Z', '+'} + DateTimeSeparators

  lemma HourMinuteChars()
    ensures CharsOf(HourMinuteP) <= Digits + {':'}
  {
    WordChars([{'0', '1'}, Digits], Digits);
    WordChars([{'2'}, {'0', '1', '2', '3'}], Digits);
    WordChars([SixtyTens, Digits], Digits);
    WordChars([{'2'}, {'4'}, {':'}, {'0'}, {'0'}], Digits + {':'});
  }

  lemma SecondsChars()
    ensures CharsOf(SecondsP) <= Digits + {':', '.', ','}
  {
    WordChars([SixtyTens, Digits], Digits);
  }

  lemma ZoneChars()
    ensures CharsOf(ZoneP) <= Digits + {':', 'z', 'Z', '+', '-'}
  {
    WordChars([{'0', '1'}, Digits], Digits);
    WordChars([{'2'}, {'0', '1', '2', '3'}], Digits);
    WordChars([SixtyTens, Digits], Digits);
  }

  lemma DateChars()
    ensures CharsOf(YearP) + CharsOf(MonthP) + CharsOf(DayP) <= Digits
  {
    WordChars([Digits, Digits, Digits, Digits], Digits);
    WordChars([{'0'}, NonZeroDigits], Digits);
    WordChars([{'1'}, {'0', '1', '2'}], Digits);
    WordChars([{'1', '2'}, Digits], Digits);
    WordChars([{'3'}, {'0', '1'}], Digits);
  }

  lemma TimeChars(c: char)
    requires c in CharsOf(TimeP)
    ensures c in IsoAlphabet
  {
    var tail := Cat(Opt(SecondsP), Opt(ZoneP));
    var rest := Cat(HourMinuteP, tail);
    assert CharsOf(TimeP) == DateTimeSeparators + CharsOf(rest);
    assert CharsOf(rest) == CharsOf(HourMinuteP) + CharsOf(tail);
    assert CharsOf(tail) == CharsOf(SecondsP) + CharsOf(ZoneP);
    if c in CharsOf(HourMinuteP) {
      HourMinuteChars();
    } else if c in CharsOf(SecondsP) {
      SecondsChars();
    } else if c in CharsOf(ZoneP) {
      ZoneChars();
    }
  }

  lemma IsoPatternChars(c: char)
    requires c in CharsOf(IsoPattern)
    ensures c in IsoAlphabet
  {
    DateChars();
    var dashDay := Cat(Lit('-'), DayTimeP);
    var monthDay := Cat(MonthP, dashDay);
    assert CharsOf(IsoPattern) == CharsOf(YearP) + CharsOf(MonthOnP);
    if c in CharsOf(MonthOnP) {
      assert CharsOf(MonthOnP) == {'-'} + CharsOf(monthDay);
      assert CharsOf(monthDay) == CharsOf(MonthP) + CharsOf(dashDay);
      assert CharsOf(dashDay) == {'-'} + CharsOf(DayTimeP);
      if c in CharsOf(DayTimeP) {
        assert CharsOf(DayTimeP) == CharsOf(DayP) + CharsOf(TimeP);
        if c in CharsOf(TimeP) {
          TimeChars(c);
        }
      }
    }
  }

  /**
   * The match is anchored at the end: text after a date that brings in any
   * character the pattern lacks (a letter other than T and Z, say) keeps the
   * whole string a string. Characters the pattern does use can extend a
   * match: `+05` followed by `:` still matches (see ZoneWithBareColon).
   */
  lemma ForeignCharacterRejected(key: string, s: string, c: char, t: string)
    requires c !in IsoAlphabet
    ensures JsonDateReviver(key, Str(s + [c] + t)) == Unchanged(Str(s + [c] + t))
  {
    var w := s + [c] + t;
    RevivedIffMatches(key, Str(w));
    if Matches(IsoPattern, w) {
      MatchesOnlyOwnChars(IsoPattern, w);
      IsoPatternChars(w[|s|]);
    }
  }

  /** The match is anchored at the start: no character may precede a date. */
  lemma LeadingCharacterRejected(key: string, c: char, s: string)
    requires JsonDateReviver(key, Str(s)).Revived?
    ensures JsonDateReviver(key, Str([c] + s)) == Unchanged(Str([c] + s))
  {
    MatchIsoCorrect(s);
    MatchIsoCorrect([c] + s);
    assert ([c] + s)[4] == s[3];
  }


  // ---------------------------------------------------------------------------
  // Worked strings
  //
  // Each example string is written as its date followed by what comes after
  // it, split where the matcher moves from one field to the next.

  /** The matcher read piece by piece: the date, then everything after it. */
  lemma DateThenTime(date: string, t: string)
    requires |date| == 10
    ensures MatchIso(date + t) <==> MatchIso(date) && MatchTimeTail(t)
  {
    assert (date + t)[10..] == t;
    assert date[10..] == [];
    assert forall i :: 0 <= i < 10 ==> (date + t)[i] == date[i];
  }

  /** A separator with hh:mm, then the rest. */
  lemma SeparatorThenHourMinute(p: string, u: string)
    requires |p| == 6
    ensures MatchTimeTail(p + u) <==> IsDateTimeSeparator(p[0]) && MatchHourMinute(p[1..]) && MatchAfterMinutes(u)
  {
    var t := p + u;
    assert t[0] == p[0];
    assert t[1..6] == p[1..];
    assert t[6..] == u;
  }

  /** ':' with the seconds, then the rest. */
  lemma ColonThenSeconds(p: string, v: string)
    requires |p| == 3 && p[0] == ':'
    ensures MatchAfterMinutes(p + v) <==> SixtyOk(p[1], p[2]) && MatchAfterSeconds(v)
  {
    assert (p + v)[1] == p[1] && (p + v)[2] == p[2];
    assert (p + v)[3..] == v;
  }

  /** A fraction mark with its digits, then the zone. */
  lemma FractionThenZone(p: string, z: string)
    requires |p| >= 2 && (p[0] == '.' || p[0] == ',')
    requires forall i :: 1 <= i < |p| ==> IsDigit(p[i])
    requires |z| > 0 ==> !IsDigit(z[0])
    ensures MatchAfterSeconds(p + z) <==> MatchZone(z)
  {
    assert (p + z)[1..] == p[1..] + z;
    DigitsThenZone(p[1..], z);
  }

  lemma DigitsThenZone(ds: string, z: string)
    requires |ds| >= 1 && forall i :: 0 <= i < |ds| ==> IsDigit(ds[i])
    requires |z| > 0 ==> !IsDigit(z[0])
    ensures MatchFraction(ds + z) <==> MatchZone(z)
  {
    DigitRunUnique(ds + z, |ds|);
    assert (ds + z)[|ds|..] == z;
  }

  /** A string the matcher accepts is revived; one it refuses is kept. */
  lemma RevivedWhenMatched(key: string, s: string)
    ensures MatchIso(s) ==> JsonDateReviver(key, Str(s)) == Revived(s)
    ensures !MatchIso(s) ==> JsonDateReviver(key, Str(s)) == Unchanged(Str(s))
  {
  }

  /** The date the worked timestamps below share. */
  lemma ExampleDate()
    ensures MatchIso("2024-03-04")
  {
  }

  /** Strings that stay strings: character 5 must be '-', and a bare year is not a date. */
  lemma NotDates(key: string)
    ensures JsonDateReviver(key, Str("2024 report")).Unchanged?
    ensures JsonDateReviver(key, Str("2024")).Unchanged?
    ensures JsonDateReviver(key, Str(" 2024-01-01")).Unchanged?
  {
    RevivedWhenMatched(key, "2024 report");
    RevivedWhenMatched(key, "2024");
    RevivedWhenMatched(key, " 2024-01-01");
  }

  /** Months stop at 12 and days at 31, and neither may be 00. */
  lemma OutOfRangeDates(key: string)
    ensures JsonDateReviver(key, Str("2024-13-01")).Unchanged?
    ensures JsonDateReviver(key, Str("2024-00-10")).Unchanged?
    ensures JsonDateReviver(key, Str("2024-01-32")).Unchanged?
  {
    RevivedWhenMatched(key, "2024-13-01");
    RevivedWhenMatched(key, "2024-00-10");
    RevivedWhenMatched(key, "2024-01-32");
  }

  /** Day 31 in February is accepted: the day is not checked against the month. */
  lemma CalendarForms(key: string)
    ensures JsonDateReviver(key, Str("2024-02-31")).Revived?
    ensures JsonDateReviver(key, Str("2024-12-01")).Revived?
  {
    RevivedWhenMatched(key, "2024-02-31");
    RevivedWhenMatched(key, "2024-12-01");
  }

  /** A full timestamp with seconds, milliseconds and a numeric zone, 2024-03-04T18:47:12.327+0000, is revived. */
  lemma TimestampRevived(key: string)
    ensures JsonDateReviver(key, Str("2024-03-04" + ("T18:47" + (":12" + (".327" + "+0000"))))).Revived?
  {
    TimestampMatches();
  }

  lemma TimestampMatches()
    ensures MatchIso("2024-03-04" + ("T18:47" + (":12" + (".327" + "+0000"))))
  {
    TimestampTime();
    ExampleDate();
    DateThenTime("2024-03-04", "T18:47" + (":12" + (".327" + "+0000")));
  }

  lemma TimestampTime()
    ensures MatchTimeTail("T18:47" + (":12" + (".327" + "+0000")))
  {
    assert MatchZone("+0000") by {
      assert "+0000"[3..] == "00";
    }
    FractionThenZone(".327", "+0000");
    ColonThenSeconds(":12", ".327" + "+0000");
    assert MatchHourMinute("T18:47"[1..]);
    SeparatorThenHourMinute("T18:47", ":12" + (".327" + "+0000"));
  }

  /** 24:00 is the one hour past 23 allowed, and seconds may still follow it. */
  lemma MidnightAtTwentyFour(key: string)
    ensures JsonDateReviver(key, Str("2024-03-04" + ("T24:00" + ":30"))).Revived?
  {
    ColonThenSeconds(":30", []);
    assert ":30" + [] == ":30";
    assert "T24:00"[1..] == "24:00";
    SeparatorThenHourMinute("T24:00", ":30");
    ExampleDate();
    DateThenTime("2024-03-04", "T24:00" + ":30");
    RevivedWhenMatched(key, "2024-03-04" + ("T24:00" + ":30"));
  }

  /** Past 24:00 the minutes must be 00. */
  lemma PastMidnightRejected(key: string)
    ensures JsonDateReviver(key, Str("2024-03-04" + "T24:01")).Unchanged?
  {
    assert "T24:01" + [] == "T24:01";
    SeparatorThenHourMinute("T24:01", []);
    ExampleDate();
    DateThenTime("2024-03-04", "T24:01");
    RevivedWhenMatched(key, "2024-03-04" + "T24:01");
  }

  /** One whitespace character may replace 'T'. */
  lemma SpaceSeparator(key: string)
    ensures JsonDateReviver(key, Str("2024-03-04" + " 18:47")).Revived?
  {
    assert " 18:47" + [] == " 18:47";
    SeparatorThenHourMinute(" 18:47", []);
    ExampleDate();
    DateThenTime("2024-03-04", " 18:47");
    RevivedWhenMatched(key, "2024-03-04" + " 18:47");
  }

  /** A lower-case 't' is not a separator. */
  lemma LowerCaseSeparator(key: string)
    ensures JsonDateReviver(key, Str("2024-03-04" + "t18:47")).Unchanged?
  {
    assert "t18:47" + [] == "t18:47";
    SeparatorThenHourMinute("t18:47", []);
    ExampleDate();
    DateThenTime("2024-03-04", "t18:47");
    RevivedWhenMatched(key, "2024-03-04" + "t18:47");
  }

  /** Two whitespace characters are not a separator. */
  lemma DoubleSpaceSeparator(key: string)
    ensures JsonDateReviver(key, Str("2024-03-04" + ("  18:4" + "7"))).Unchanged?
  {
    SeparatorThenHourMinute("  18:4", "7");
    ExampleDate();
    DateThenTime("2024-03-04", "  18:4" + "7");
    RevivedWhenMatched(key, "2024-03-04" + ("  18:4" + "7"));
  }

  /** A fraction needs at least one digit. */
  lemma EmptyFractionRejected(key: string)
    ensures JsonDateReviver(key, Str("2024-03-04" + ("T18:47" + (":12" + ".")))).Unchanged?
  {
    ColonThenSeconds(":12", ".");
    SeparatorThenHourMinute("T18:47", ":12" + ".");
    ExampleDate();
    DateThenTime("2024-03-04", "T18:47" + (":12" + "."));
    RevivedWhenMatched(key, "2024-03-04" + ("T18:47" + (":12" + ".")));
  }

  /** A fraction only follows seconds. */
  lemma FractionWithoutSecondsRejected(key: string)
    ensures JsonDateReviver(key, Str("2024-03-04" + ("T18:47" + ".5"))).Unchanged?
  {
    SeparatorThenHourMinute("T18:47", ".5");
    ExampleDate();
    DateThenTime("2024-03-04", "T18:47" + ".5");
    RevivedWhenMatched(key, "2024-03-04" + ("T18:47" + ".5"));
  }

  /** A zone may end in a bare ':' with no minutes. */
  lemma ZoneWithBareColon(key: string)
    ensures JsonDateReviver(key, Str("2024-03-04" + ("T18:47" + "+05:"))).Revived?
  {
    assert "+05:"[3..] == ":";
    assert MatchHourMinute("T18:47"[1..]);
    SeparatorThenHourMinute("T18:47", "+05:");
    ExampleDate();
    DateThenTime("2024-03-04", "T18:47" + "+05:");
    RevivedWhenMatched(key, "2024-03-04" + ("T18:47" + "+05:"));
  }

  /** A zone hour stops at 23. */
  lemma ZoneHourRejected(key: string)
    ensures JsonDateReviver(key, Str("2024-03-04" + ("T18:47" + "+24"))).Unchanged?
  {
    SeparatorThenHourMinute("T18:47", "+24");
    ExampleDate();
    DateThenTime("2024-03-04", "T18:47" + "+24");
    RevivedWhenMatched(key, "2024-03-04" + ("T18:47" + "+24"));
  }
}
