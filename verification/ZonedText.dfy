/**
 What a zoned timestamp denotes, from its digits: the written reading, moved back by an offset east of UTC and forward
 by an offset west of it.
 */
module ZonedText {
  import opened Wrappers
  import opened Forms
  import opened Calendar
  import opened Rfc3339

  function Pad2(n: int): string
    requires 0 <= n <= 99
  {
    [DigitChar(n / 10), DigitChar(n % 10)]
  }

  /** YYYY-MM-DDThh:mm:ss, a sign, and an offset of hours and minutes. */
  function Written(c: Civil, sign: char, hours: int, minutes: int): string
    requires ValidCivil(c) && FourDigitYear(c) && 0 <= hours <= 99 && 0 <= minutes <= 99
  {
    Format20(c);
    Format(c)[..19] + [sign] + Pad2(hours) + ":" + Pad2(minutes)
  }

  lemma Pad2Value(n: int)
    requires 0 <= n <= 99
    ensures |Pad2(n)| == 2 && TwoDigits(Pad2(n), 0) && Value2(Pad2(n), 0) == n
  {
  }

  /** The first nineteen characters of a zoned text are those of the canonical text; six more say the zone. */
  lemma ZonedCharacters(c: Civil, sign: char, hours: int, minutes: int)
    requires ValidCivil(c) && FourDigitYear(c) && 0 <= hours <= 99 && 0 <= minutes <= 99
    ensures var s, f := Written(c, sign, hours, minutes), Format(c);
            && |s| == 25 && |f| == 20
            && (forall i | 0 <= i < 19 :: s[i] == f[i])
            && s[19] == sign && s[22] == ':'
            && TwoDigits(s, 20) && Value2(s, 20) == hours && TwoDigits(s, 23) && Value2(s, 23) == minutes
  {
    hide Format, Pad2;
    Format20(c);
    Pad2Value(hours);
    Pad2Value(minutes);
    var s, f := Written(c, sign, hours, minutes), Format(c);
    assert s[20] == Pad2(hours)[0] && s[21] == Pad2(hours)[1];
    assert s[23] == Pad2(minutes)[0] && s[24] == Pad2(minutes)[1];
  }

  /** Go reads the date and the clock as printed, and the zone as written. */
  lemma ZonedParse(c: Civil, sign: char, hours: int, minutes: int)
    requires ValidCivil(c) && FourDigitYear(c) && 0 <= hours <= 99 && 0 <= minutes <= 99
    requires sign == '+' || sign == '-'
    ensures var seconds := 3600 * hours + 60 * minutes;
            Parse(Written(c, sign, hours, minutes), Zoned) ==
            if hours <= 24 && minutes <= 60 then Some(Stamp(c, 0, if sign == '+' then seconds else -seconds)) else None
  {
    hide Written, Format;
    Format20(c);
    ZonedCharacters(c, sign, hours, minutes);
    var s := Written(c, sign, hours, minutes);
    assert FractionEnd(s, 19) == 19;
    assert ParseDate(s) == Some(c.date);
  }

  /** A conversion by any offset that Go reads stays within a year of the written one. */
  lemma NearYear(c: Civil, offset: int)
    requires ValidCivil(c) && FourDigitYear(c) && -90000 <= offset <= 90000
    ensures NearFourDigits(ToUtc(c, offset).date.year)
  {
    CarryYear(c.date, (SecondOfDay(c) - offset) / SECONDS_PER_DAY);
  }

  /** The canonical text of the moment at which clocks `offset` seconds ahead of UTC show the reading. */
  function MovedToUtc(c: Civil, offset: int): string
    requires ValidCivil(c) && FourDigitYear(c) && -90000 <= offset <= 90000
  {
    NearYear(c, offset);
    Format(ToUtc(c, offset))
  }

  /**
   A reading written with +hh:mm is that much ahead of UTC, one written with -hh:mm that much behind. Offsets beyond
   24 hours or 60 minutes are refused.
   */
  lemma ZonedNormalizes(c: Civil, hours: int, minutes: int)
    requires ValidCivil(c) && FourDigitYear(c) && 0 <= hours <= 99 && 0 <= minutes <= 99
    ensures |Format(c)| == 20
    ensures var seconds := 3600 * hours + 60 * minutes;
            NormalizeTimestamp(Format(c)[..19] + "+" + Pad2(hours) + ":" + Pad2(minutes)) ==
            if hours <= 24 && minutes <= 60 then Some(MovedToUtc(c, seconds)) else None
    ensures var seconds := 3600 * hours + 60 * minutes;
            NormalizeTimestamp(Format(c)[..19] + "-" + Pad2(hours) + ":" + Pad2(minutes)) ==
            if hours <= 24 && minutes <= 60 then Some(MovedToUtc(c, -seconds)) else None
  {
    hide Parse, Format, Pad2, ToUtc;
    Format20(c);
    ZonedParse(c, '+', hours, minutes);
    ZonedParse(c, '-', hours, minutes);
    if hours <= 24 && minutes <= 60 {
      var seconds := 3600 * hours + 60 * minutes;
      NearYear(c, seconds);
      NearYear(c, -seconds);
    }
  }

  /** A reading that ends in Z is its own normal form. */
  lemma UtcNormalizes(c: Civil)
    requires ValidCivil(c) && FourDigitYear(c)
    ensures NormalizeTimestamp(Format(c)) == Some(Format(c))
  {
    FormatParses(c, Zoned);
    Format20(c);
    CanonicalTextFixed(Format(c));
  }

  lemma KnownYears()
    ensures YearText(2026) == "2026" && YearText(2024) == "2024"
  {
  }

  lemma KnownTails()
    ensures Tail(Civil(Date(2026, 8, 26), 22, 0, 0)) == "-08-26T22:00:00Z"
    ensures Tail(Civil(Date(2026, 8, 26), 20, 0, 0)) == "-08-26T20:00:00Z"
  {
  }

  lemma KnownLeapTails()
    ensures Tail(Civil(Date(2024, 3, 1), 0, 30, 0)) == "-03-01T00:30:00Z"
    ensures ValidCivil(Civil(Date(2024, 2, 29), 23, 30, 0))
    ensures Tail(Civil(Date(2024, 2, 29), 23, 30, 0)) == "-02-29T23:30:00Z"
  {
  }

  lemma KnownTexts()
    ensures Format(Civil(Date(2026, 8, 26), 22, 0, 0)) == "2026-08-26T22:00:00Z"
    ensures Format(Civil(Date(2026, 8, 26), 20, 0, 0)) == "2026-08-26T20:00:00Z"
  {
    hide YearText, Tail;
    KnownYears();
    KnownTails();
    assert "2026" + "-08-26T22:00:00Z" == "2026-08-26T22:00:00Z";
    assert "2026" + "-08-26T20:00:00Z" == "2026-08-26T20:00:00Z";
  }

  lemma KnownLeapTexts()
    ensures ValidCivil(Civil(Date(2024, 2, 29), 23, 30, 0))
    ensures Format(Civil(Date(2024, 3, 1), 0, 30, 0)) == "2024-03-01T00:30:00Z"
    ensures Format(Civil(Date(2024, 2, 29), 23, 30, 0)) == "2024-02-29T23:30:00Z"
  {
    hide YearText, Tail;
    KnownYears();
    KnownLeapTails();
    assert "2024" + "-03-01T00:30:00Z" == "2024-03-01T00:30:00Z";
    assert "2024" + "-02-29T23:30:00Z" == "2024-02-29T23:30:00Z";
  }

  lemma KnownReadings()
    ensures ToUtc(Civil(Date(2026, 8, 26), 22, 0, 0), 7200) == Civil(Date(2026, 8, 26), 20, 0, 0)
    ensures ToUtc(Civil(Date(2024, 3, 1), 0, 30, 0), 3600) == Civil(Date(2024, 2, 29), 23, 30, 0)
  {
    assert AddDays(Date(2024, 3, 1), -1) == PreviousDay(Date(2024, 3, 1)) == Date(2024, 2, 29);
  }

  lemma KnownPads()
    ensures Pad2(1) == "01" && Pad2(2) == "02" && Pad2(0) == "00"
  {
  }

  /** A zoned text from the generator's own tests, and a carry over the end of a leap February. */
  lemma KnownZones()
    ensures NormalizeTimestamp("2026-08-26T22:00:00+02:00") == Some("2026-08-26T20:00:00Z")
    ensures NormalizeTimestamp("2024-03-01T00:30:00+01:00") == Some("2024-02-29T23:30:00Z")
  {
    hide NormalizeTimestamp, Format, ToUtc, Pad2, ValidCivil, FourDigitYear;
    KnownTexts();
    KnownLeapTexts();
    KnownReadings();
    KnownPads();
    KnownValid();
    ZonedNormalizes(Civil(Date(2026, 8, 26), 22, 0, 0), 2, 0);
    ZonedNormalizes(Civil(Date(2024, 3, 1), 0, 30, 0), 1, 0);
    assert "2026-08-26T22:00:00Z"[..19] + "+" + "02" + ":" + "00" == "2026-08-26T22:00:00+02:00";
    assert "2024-03-01T00:30:00Z"[..19] + "+" + "01" + ":" + "00" == "2024-03-01T00:30:00+01:00";
  }

  lemma KnownValid()
    ensures var c := Civil(Date(2026, 8, 26), 22, 0, 0); ValidCivil(c) && FourDigitYear(c)
    ensures var c := Civil(Date(2024, 3, 1), 0, 30, 0); ValidCivil(c) && FourDigitYear(c)
  {
  }

  /** The scale of instants: seconds since 1970-01-01T00:00:00Z. */
  lemma KnownInstants(c: Civil)
    requires ValidCivil(c)
    ensures c == Civil(Date(1970, 1, 1), 0, 0, 0) ==> Instant(c) == 0
    ensures c == Civil(Date(2026, 8, 26), 20, 0, 0) ==> Instant(c) == 1787774400
  {
    hide DaysBeforeYear, DaysBeforeMonth;
    assert DaysBeforeMonth(1, 1970) == 0 && DaysBeforeMonth(8, 2026) == 212 by {
      DaysBeforeMonthTable(1, 1970);
      DaysBeforeMonthTable(8, 2026);
    }
    KnownYearDays();
  }

  lemma KnownYearDays()
    ensures DaysBeforeYear(1970) == 719528 && DaysBeforeYear(2026) == 739982
  {
  }

  // ----- what else Go reads -----

  /** An hour below ten may be written with one digit. */
  lemma OneDigitHour(c: Civil)
    requires ValidCivil(c) && FourDigitYear(c) && c.hour < 10
    ensures |Format(c)| == 20
    ensures NormalizeTimestamp(Format(c)[..11] + Format(c)[12..]) == Some(Format(c))
  {
    hide Format;
    Format20(c);
    var f := Format(c);
    var s := f[..11] + f[12..];
    assert forall i | 0 <= i < 11 :: s[i] == f[i];
    assert forall i | 11 <= i < 19 :: s[i] == f[i + 1];
    assert f[11] == '0' && DigitValue(f[12]) == c.hour;
    assert ParseDate(s) == Some(c.date);
    assert Parse(s, Zoned) == Some(Stamp(c, 0, 0));
    UtcNormalizes(c);
    FormatParses(c, Zoned);
  }

  /** A fraction of zeros, after a period or a comma, changes nothing. */
  lemma ZeroFraction(c: Civil, separator: char, zeros: string)
    requires ValidCivil(c) && FourDigitYear(c) && separator in ".,"
    requires zeros != "" && forall i | 0 <= i < |zeros| :: zeros[i] == '0'
    ensures |Format(c)| == 20
    ensures NormalizeTimestamp(Format(c)[..19] + [separator] + zeros + "Z") == Some(Format(c))
  {
    hide Format;
    Format20(c);
    var f, n := Format(c), |zeros|;
    var s := f[..19] + [separator] + zeros + "Z";
    assert forall i | 0 <= i < 19 :: s[i] == f[i];
    assert forall i | 20 <= i < 20 + n :: s[i] == zeros[i - 20];
    assert s[19] == separator && s[20 + n] == 'Z';
    RunEndAt(s, 20, 20 + n);
    assert FractionEnd(s, 19) == 20 + n;
    assert ParseDate(s) == Some(c.date);
    assert Parse(s, Zoned).Some? && Parse(s, Zoned).value.local == c && Parse(s, Zoned).value.offset == 0;
    NormalizesIffNineZeros(s);
    UtcNormalizes(c);
    FormatParses(c, Zoned);
  }

  // ----- what a fraction is worth -----

  /** The value of a row of decimal digits. */
  function Value(digits: string): nat
    requires AllDigits(digits)
  {
    if digits == [] then 0 else 10 * Value(digits[..|digits| - 1]) + DigitValue(digits[|digits| - 1])
  }

  predicate AllDigits(s: string) {
    forall i | 0 <= i < |s| :: IsDigit(s[i])
  }

  /** The first `width` digits, with zeros where there are fewer. */
  function Padded(digits: string, width: nat): (r: string)
    requires AllDigits(digits)
    ensures |r| == width && AllDigits(r)
  {
    if |digits| >= width then digits[..width] else digits + seq(width - |digits|, _ => '0')
  }

  function Power10(n: nat): nat {
    if n == 0 then 1 else 10 * Power10(n - 1)
  }

  lemma {:induction false} ValueByFirst(digits: string)
    requires digits != [] && AllDigits(digits)
    ensures Value(digits) == DigitValue(digits[0]) * Power10(|digits| - 1) + Value(digits[1..])
  {
    var n := |digits|;
    if n > 1 {
      hide DigitValue;
      var front, rest := digits[..n - 1], digits[1..];
      ValueByFirst(front);
      assert front[1..] == rest[..n - 2] && rest[n - 2] == digits[n - 1] && front[0] == digits[0];
      Regroup(DigitValue(digits[0]), Power10(n - 2));
    } else {
      assert Power10(0) == 1 && digits[..0] == [] && digits[1..] == [];
    }
  }

  lemma Regroup(d: nat, p: nat)
    ensures 10 * (d * p) == d * (10 * p)
  {
  }

  /** The weight of the first of `width` digits. */
  function Weight(width: nat): nat {
    if width == 0 then 0 else Power10(width - 1)
  }

  lemma NextWeight(width: nat)
    requires width > 0
    ensures Weight(width) / 10 == Weight(width - 1) && Weight(width) != 0
  {
    PowerPositive(width - 1);
  }

  lemma PowerPositive(n: nat)
    ensures Power10(n) > 0
  {
  }

  lemma PaddedRest(digits: string, width: nat)
    requires digits != [] && AllDigits(digits) && width > 0
    ensures AllDigits(digits[1..])
    ensures Padded(digits, width)[0] == digits[0] && Padded(digits, width)[1..] == Padded(digits[1..], width - 1)
  {
  }

  /** Digits weighed one after the other, each a tenth of the one before, add up to their value. */
  lemma {:induction false} ScaledValue(s: string, i: nat, end: nat, width: nat)
    requires i <= end <= |s| && AllDigits(s[i..end])
    requires forall k | i <= k < end :: IsDigit(s[k])
    ensures Scaled(s, i, end, Weight(width)) == Value(Padded(s[i..end], width))
    decreases width
  {
    hide Padded, Value, Weight, DigitValue, AllDigits;
    var digits := s[i..end];
    if width == 0 || i == end {
      NoFraction(width);
    } else {
      assert digits[1..] == s[i + 1..end] && digits[0] == s[i];
      PaddedRest(digits, width);
      NextWeight(width);
      ScaledValue(s, i + 1, end, width - 1);
      ValueByFirst(Padded(digits, width));
      WeightIsPower(width);
    }
    ZeroWidth(digits);
  }

  lemma WeightIsPower(width: nat)
    requires width > 0
    ensures Weight(width) == Power10(width - 1)
  {
  }

  lemma ZeroWidth(digits: string)
    requires AllDigits(digits)
    ensures Weight(0) == 0 && Value(Padded(digits, 0)) == 0
  {
  }

  lemma NoFraction(width: nat)
    ensures AllDigits([]) && Value(Padded([], width)) == 0
  {
    ZerosValue(width);
    assert Padded([], width) == seq(width, _ => '0');
  }

  lemma {:induction false} ZerosValue(n: nat)
    ensures AllDigits(seq(n, _ => '0')) && Value(seq(n, _ => '0')) == 0
  {
    var zeros := seq(n, _ => '0');
    if n > 0 {
      ZerosValue(n - 1);
      assert zeros[..n - 1] == seq(n - 1, _ => '0');
    }
  }

  lemma NanosecondWeight()
    ensures Weight(9) == 100000000
  {
    assert Power10(4) == 10000;
  }

  /** A fraction is read as nanoseconds: nine digits of it, filled up with zeros; further digits are dropped. */
  lemma FractionValue(c: Civil, digits: string)
    requires ValidCivil(c) && FourDigitYear(c) && digits != [] && AllDigits(digits)
    ensures |Format(c)| == 20
    ensures Parse(Format(c)[..19] + "." + digits + "Z", Zoned) == Some(Stamp(c, Value(Padded(digits, 9)), 0))
  {
    hide Format, Padded, Value, Scaled;
    Format20(c);
    var f, n := Format(c), |digits|;
    var s := f[..19] + "." + digits + "Z";
    assert forall i | 0 <= i < 19 :: s[i] == f[i];
    assert forall i | 20 <= i < 20 + n :: s[i] == digits[i - 20];
    assert s[19] == '.' && s[20 + n] == 'Z' && s[20..20 + n] == digits;
    RunEndAt(s, 20, 20 + n);
    assert FractionEnd(s, 19) == 20 + n;
    assert ParseDate(s) == Some(c.date);
    NanosecondWeight();
    ScaledValue(s, 20, 20 + n, 9);
  }
}
