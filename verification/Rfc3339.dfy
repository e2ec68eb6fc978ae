/**
 Timestamps as text (section 5.6 of RFC 3339): Go's time.Parse with its leniencies, Time.Format with the layout
 "2006-01-02T15:04:05Z", and the normalisation built from the two.
 */
module Rfc3339 {
  import opened Wrappers
  import opened Forms
  import opened Calendar

  /** What a successful parse yields: the written reading, its fraction of a second and its zone offset. */
  datatype Stamp = Stamp(local: Civil, nanos: nat, offset: int)

  /** time.RFC3339 reads a zone; "2006-01-02T15:04:05Z" has a literal Z in its place. */
  datatype Layout = Zoned | LiteralZ

  predicate DigitAt(s: string, i: nat) {
    i < |s| && IsDigit(s[i])
  }

  predicate CharAt(s: string, i: nat, c: char) {
    i < |s| && s[i] == c
  }

  predicate TwoDigits(s: string, i: nat) {
    DigitAt(s, i) && DigitAt(s, i + 1)
  }

  function DigitValue(c: char): nat
    requires IsDigit(c)
  {
    c as int - '0' as int
  }

  function Value2(s: string, i: nat): nat
    requires TwoDigits(s, i)
  {
    10 * DigitValue(s[i]) + DigitValue(s[i + 1])
  }

  /** YYYY-MM-DDT at the start of s. */
  function ParseDate(s: string): (r: Option<Date>)
    ensures r.Some? ==> ValidDate(r.value) && 0 <= r.value.year <= 9999
  {
    if TwoDigits(s, 0) && TwoDigits(s, 2) && CharAt(s, 4, '-') && TwoDigits(s, 5) && CharAt(s, 7, '-')
       && TwoDigits(s, 8) && CharAt(s, 10, 'T')
    then
      var d := Date(100 * Value2(s, 0) + Value2(s, 2), Value2(s, 5), Value2(s, 8));
      if ValidDate(d) then Some(d) else None
    else None
  }

  /** The end of the run of digits that starts at i. */
  function DigitRunEnd(s: string, i: nat): (end: nat)
    requires i <= |s|
    ensures i <= end <= |s|
    decreases |s| - i
  {
    if DigitAt(s, i) then DigitRunEnd(s, i + 1) else i
  }

  /** Where the optional fraction that may start at i ends; Go takes a period or a comma. */
  function FractionEnd(s: string, i: nat): (end: nat)
    requires i <= |s|
    ensures i <= end <= |s|
  {
    if (CharAt(s, i, '.') || CharAt(s, i, ',')) && DigitAt(s, i + 1) then DigitRunEnd(s, i + 1) else i
  }

  /** The nanoseconds of the digits from i on: the tenth digit and later ones are dropped. */
  function Scaled(s: string, i: nat, end: nat, weight: nat): nat
    requires i <= end <= |s|
    requires forall k | i <= k < end :: IsDigit(s[k])
    decreases end - i
  {
    if i == end || weight == 0 then 0
    else DigitValue(s[i]) * weight + Scaled(s, i + 1, end, weight / 10)
  }

  lemma {:induction false} DigitRun(s: string, i: nat)
    requires i <= |s|
    ensures forall k | i <= k < DigitRunEnd(s, i) :: IsDigit(s[k])
    decreases |s| - i
  {
    if DigitAt(s, i) {
      DigitRun(s, i + 1);
    }
  }

  function Nanoseconds(s: string, i: nat): nat
    requires i <= |s|
  {
    var end := FractionEnd(s, i);
    if end == i then 0
    else
      DigitRun(s, i + 1);
      Scaled(s, i + 1, end, 100000000)
  }

  /** The zone that must end s; Go lets an offset reach 24 hours and 60 minutes. */
  function ParseZone(s: string, i: nat, layout: Layout): Option<int>
  {
    if CharAt(s, i, 'Z') && |s| == i + 1 then Some(0)
    else if layout.Zoned? && |s| == i + 6 && (s[i] == '+' || s[i] == '-') && TwoDigits(s, i + 1)
            && s[i + 3] == ':' && TwoDigits(s, i + 4) && Value2(s, i + 1) <= 24 && Value2(s, i + 4) <= 60
    then
      var seconds := (Value2(s, i + 1) * 60 + Value2(s, i + 4)) * 60;
      Some(if s[i] == '-' then -seconds else seconds)
    else None
  }

  /** time.Parse: the hour may be written with one digit. */
  function Parse(s: string, layout: Layout): (r: Option<Stamp>)
    ensures r.Some? ==>
      && ValidCivil(r.value.local)
      && 0 <= r.value.local.date.year <= 9999
      && -90000 <= r.value.offset <= 90000
  {
    var date :- ParseDate(s);
    if !DigitAt(s, 11) then None
    else
      var colon := if DigitAt(s, 12) then 13 else 12;
      var hour := if DigitAt(s, 12) then Value2(s, 11) else DigitValue(s[11]);
      if !(CharAt(s, colon, ':') && TwoDigits(s, colon + 1) && CharAt(s, colon + 3, ':') && TwoDigits(s, colon + 4))
      then None
      else
        var local := Civil(date, hour, Value2(s, colon + 1), Value2(s, colon + 4));
        if !ValidCivil(local) then None
        else
          var offset :- ParseZone(s, FractionEnd(s, colon + 6), layout);
          Some(Stamp(local, Nanoseconds(s, colon + 6), offset))
  }

  /** The whole seconds since the Unix epoch that a parsed stamp denotes. */
  function StampInstant(t: Stamp): int
    requires ValidCivil(t.local)
  {
    Instant(t.local) - t.offset
  }

  function DigitChar(n: int): char
    requires 0 <= n <= 9
  {
    (n + '0' as int) as char
  }

  function Pad4(n: int): string
    requires 0 <= n <= 9999
  {
    [DigitChar(n / 1000), DigitChar(n / 100 % 10), DigitChar(n / 10 % 10), DigitChar(n % 10)]
  }

  /** A conversion to UTC leaves the years of four digits by at most one. */
  predicate NearFourDigits(year: int) {
    -1 <= year <= 10000
  }

  /** Years outside 0..9999 get a sign or a fifth digit. */
  function YearText(year: int): string
    requires NearFourDigits(year)
  {
    if year < 0 then "-0001"
    else if year <= 9999 then Pad4(year)
    else "10000"
  }

  function Tail(c: Civil): string
    requires ValidCivil(c)
  {
    var month, day, hour, minute, second := c.date.month, c.date.day, c.hour, c.minute, c.second;
    ['-', DigitChar(month / 10), DigitChar(month % 10), '-', DigitChar(day / 10), DigitChar(day % 10),
     'T', DigitChar(hour / 10), DigitChar(hour % 10), ':', DigitChar(minute / 10), DigitChar(minute % 10),
     ':', DigitChar(second / 10), DigitChar(second % 10), 'Z']
  }

  /** Time.Format("2006-01-02T15:04:05Z") of a UTC reading. */
  function Format(c: Civil): string
    requires ValidCivil(c) && NearFourDigits(c.date.year)
  {
    YearText(c.date.year) + Tail(c)
  }

  predicate FourDigitYear(c: Civil) {
    0 <= c.date.year <= 9999
  }

  /** A carry of two days at most moves the year by at most one. */
  lemma CarryYear(d: Date, days: int)
    requires ValidDate(d) && -2 <= days <= 2
    ensures d.year - 1 <= AddDays(d, days).year <= d.year + 1
  {
    if days > 0 {
      assert AddDays(d, days) == AddDays(NextDay(d), days - 1);
      assert days == 2 ==> AddDays(d, days) == AddDays(NextDay(NextDay(d)), 0);
    } else if days < 0 {
      assert AddDays(d, days) == AddDays(PreviousDay(d), days + 1);
      assert days == -2 ==> AddDays(d, days) == AddDays(PreviousDay(PreviousDay(d)), 0);
    }
  }

  /** The UTC reading of a parsed stamp. */
  function Utc(t: Stamp): (u: Civil)
    requires ValidCivil(t.local) && FourDigitYear(t.local) && -90000 <= t.offset <= 90000
    ensures ValidCivil(u) && NearFourDigits(u.date.year)
  {
    CarryYear(t.local.date, (SecondOfDay(t.local) - t.offset) / SECONDS_PER_DAY);
    ToUtc(t.local, t.offset)
  }

  /** normalizeAgentGovernanceTimestamp. */
  function NormalizeTimestamp(s: string): Option<string> {
    var t :- Parse(s, Zoned);
    if t.nanos != 0 then None else Some(Format(Utc(t)))
  }

  // ----- printing and reading -----

  /** ^[0-9]{4}-[0-9]{2}-[0-9]{2}T[0-9]{2}:[0-9]{2}:[0-9]{2}Z$, the gate's pattern for a timestamp. */
  predicate SecondsShape(s: string) {
    && |s| == 20
    && TwoDigits(s, 0) && TwoDigits(s, 2) && s[4] == '-' && TwoDigits(s, 5) && s[7] == '-' && TwoDigits(s, 8)
    && s[10] == 'T' && TwoDigits(s, 11) && s[13] == ':' && TwoDigits(s, 14) && s[16] == ':' && TwoDigits(s, 17)
    && s[19] == 'Z'
  }

  /** Text of the canonical shape has no fraction and no offset, so both layouts read it alike. */
  lemma ShapeParses(s: string, layout: Layout)
    requires SecondsShape(s)
    ensures var d := Date(100 * Value2(s, 0) + Value2(s, 2), Value2(s, 5), Value2(s, 8));
            var c := Civil(d, Value2(s, 11), Value2(s, 14), Value2(s, 17));
            Parse(s, layout) == if ValidCivil(c) then Some(Stamp(c, 0, 0)) else None
  {
    assert FractionEnd(s, 19) == 19;
  }

  /** Four decimal digits determine the number they were taken from. */
  lemma FourDigits(n: int)
    requires 0 <= n <= 9999
    ensures 0 <= n / 1000 <= 9
    ensures 100 * (10 * (n / 1000) + n / 100 % 10) + (10 * (n / 10 % 10) + n % 10) == n
  {
    var a, b := n / 100, n % 100;
    assert n == 100 * a + b && 0 <= b < 100;
    assert n / 1000 == a / 10;
    assert n / 10 == 10 * a + b / 10 && n % 10 == b % 10;
  }

  lemma Pad4Value(n: int)
    requires 0 <= n <= 9999
    ensures TwoDigits(Pad4(n), 0) && TwoDigits(Pad4(n), 2)
    ensures 100 * Value2(Pad4(n), 0) + Value2(Pad4(n), 2) == n
  {
    FourDigits(n);
    var p := Pad4(n);
    assert DigitValue(p[0]) == n / 1000 && DigitValue(p[1]) == n / 100 % 10;
    assert DigitValue(p[2]) == n / 10 % 10 && DigitValue(p[3]) == n % 10;
  }

  lemma TailValues(c: Civil)
    requires ValidCivil(c)
    ensures var t := Tail(c);
            && |t| == 16 && t[0] == '-' && t[3] == '-' && t[6] == 'T' && t[9] == ':' && t[12] == ':' && t[15] == 'Z'
            && TwoDigits(t, 1) && TwoDigits(t, 4) && TwoDigits(t, 7) && TwoDigits(t, 10) && TwoDigits(t, 13)
            && Value2(t, 1) == c.date.month && Value2(t, 4) == c.date.day
            && Value2(t, 7) == c.hour && Value2(t, 10) == c.minute && Value2(t, 13) == c.second
  {
  }

  lemma Format20(c: Civil)
    requires ValidCivil(c) && FourDigitYear(c)
    ensures SecondsShape(Format(c))
    ensures var s := Format(c);
            && 100 * Value2(s, 0) + Value2(s, 2) == c.date.year
            && Value2(s, 5) == c.date.month && Value2(s, 8) == c.date.day
            && Value2(s, 11) == c.hour && Value2(s, 14) == c.minute && Value2(s, 17) == c.second
  {
    TailValues(c);
    Pad4Value(c.date.year);
    var y, t := Pad4(c.date.year), Tail(c);
    var s := Format(c);
    assert forall i | 0 <= i < 4 :: s[i] == y[i];
    assert forall i | 4 <= i < 20 :: s[i] == t[i - 4];
  }

  /** Canonical text reads back as the reading it was printed from, under either layout. */
  lemma FormatParses(c: Civil, layout: Layout)
    requires ValidCivil(c) && FourDigitYear(c)
    ensures Parse(Format(c), layout) == Some(Stamp(c, 0, 0))
  {
    Format20(c);
    ShapeParses(Format(c), layout);
  }

  /** Text printed from a year of five digits or with a sign does not read back at all. */
  lemma OddYearFails(c: Civil, layout: Layout)
    requires ValidCivil(c) && NearFourDigits(c.date.year) && !FourDigitYear(c)
    ensures Parse(Format(c), layout) == None
  {
    var y, t := YearText(c.date.year), Tail(c);
    assert |y| == 5;
    assert Format(c)[0] == y[0] && Format(c)[4] == y[4];
  }

  lemma Pad4Injective(a: int, b: int)
    requires 0 <= a <= 9999 && 0 <= b <= 9999 && Pad4(a) == Pad4(b)
    ensures a == b
  {
    Pad4Value(a);
    Pad4Value(b);
  }

  lemma YearTextInjective(a: int, b: int)
    requires NearFourDigits(a) && NearFourDigits(b) && YearText(a) == YearText(b)
    ensures a == b
  {
    var x, y := YearText(a), YearText(b);
    assert |x| == |y| && x[0] == y[0];
    if 0 <= a <= 9999 && 0 <= b <= 9999 {
      Pad4Injective(a, b);
    }
  }

  lemma TailInjective(a: Civil, b: Civil)
    requires ValidCivil(a) && ValidCivil(b) && Tail(a) == Tail(b)
    ensures a.date.month == b.date.month && a.date.day == b.date.day
    ensures a.hour == b.hour && a.minute == b.minute && a.second == b.second
  {
    TailValues(a);
    TailValues(b);
  }

  /** No two readings share a text. */
  lemma FormatInjective(a: Civil, b: Civil)
    requires ValidCivil(a) && NearFourDigits(a.date.year)
    requires ValidCivil(b) && NearFourDigits(b.date.year)
    requires Format(a) == Format(b)
    ensures a == b
  {
    var s, n := Format(a), |Format(a)| - 16;
    assert YearText(a.date.year) == s[..n] == YearText(b.date.year);
    assert Tail(a) == s[n..] == Tail(b);
    YearTextInjective(a.date.year, b.date.year);
    TailInjective(a, b);
  }

  // ----- normalisation -----

  /** Two texts that both normalise do so to the same text exactly when they denote the same instant. */
  lemma SameInstantSameText(a: string, b: string)
    requires NormalizeTimestamp(a).Some? && NormalizeTimestamp(b).Some?
    ensures NormalizeTimestamp(a) == NormalizeTimestamp(b)
      <==> StampInstant(Parse(a, Zoned).value) == StampInstant(Parse(b, Zoned).value)
  {
    var s, t := Parse(a, Zoned).value, Parse(b, Zoned).value;
    ToUtcInstant(s.local, s.offset);
    ToUtcInstant(t.local, t.offset);
    if StampInstant(s) == StampInstant(t) {
      InstantInjective(Utc(s), Utc(t));
    }
    if NormalizeTimestamp(a) == NormalizeTimestamp(b) {
      FormatInjective(Utc(s), Utc(t));
    }
  }

  /** Normal text that reads back at all has the canonical shape and denotes the instant of the original. */
  lemma NormalTextReads(s: string, layout: Layout)
    requires NormalizeTimestamp(s).Some?
    requires Parse(NormalizeTimestamp(s).value, layout).Some?
    ensures var t := NormalizeTimestamp(s).value;
            && SecondsShape(t)
            && (forall l: Layout :: Parse(t, l) == Parse(t, layout))
            && Parse(t, layout).value.nanos == 0
            && StampInstant(Parse(t, layout).value) == StampInstant(Parse(s, Zoned).value)
            && NormalizeTimestamp(t) == Some(t)
  {
    var p := Parse(s, Zoned).value;
    var u := Utc(p);
    ToUtcInstant(p.local, p.offset);
    if !FourDigitYear(u) {
      OddYearFails(u, layout);
    }
    Format20(u);
    forall l: Layout
      ensures Parse(Format(u), l) == Some(Stamp(u, 0, 0))
    {
      FormatParses(u, l);
    }
    ToUtcInstant(u, 0);
    InstantInjective(u, ToUtc(u, 0));
  }

  lemma TwoDigitsSame(s: string, t: string, i: nat)
    requires TwoDigits(s, i) && TwoDigits(t, i) && Value2(s, i) == Value2(t, i)
    ensures s[i] == t[i] && s[i + 1] == t[i + 1]
  {
  }

  /** Text of the canonical shape is determined by its fields. */
  lemma ShapeDetermined(s: string, t: string)
    requires SecondsShape(s) && SecondsShape(t)
    requires 100 * Value2(s, 0) + Value2(s, 2) == 100 * Value2(t, 0) + Value2(t, 2)
    requires Value2(s, 5) == Value2(t, 5) && Value2(s, 8) == Value2(t, 8)
    requires Value2(s, 11) == Value2(t, 11) && Value2(s, 14) == Value2(t, 14) && Value2(s, 17) == Value2(t, 17)
    ensures s == t
  {
    TwoDigitsSame(s, t, 0);
    TwoDigitsSame(s, t, 2);
    TwoDigitsSame(s, t, 5);
    TwoDigitsSame(s, t, 8);
    TwoDigitsSame(s, t, 11);
    TwoDigitsSame(s, t, 14);
    TwoDigitsSame(s, t, 17);
    assert forall i | 0 <= i < 20 :: s[i] == t[i];
  }

  /** A timestamp that already has the canonical shape is its own normal form. */
  lemma CanonicalTextFixed(t: string)
    requires SecondsShape(t) && Parse(t, Zoned).Some?
    ensures NormalizeTimestamp(t) == Some(t)
  {
    ShapeParses(t, Zoned);
    var u := Parse(t, Zoned).value.local;
    ToUtcInstant(u, 0);
    InstantInjective(u, ToUtc(u, 0));
    Format20(u);
    ShapeDetermined(Format(u), t);
  }

  /** The seconds since the Unix epoch from 0000-01-01T00:00:00Z to 9999-12-31T23:59:59Z. */
  predicate FourDigitInstant(seconds: int) {
    -62167219200 <= seconds <= 253402300799
  }

  lemma FourDigitRange(c: Civil)
    requires ValidCivil(c)
    ensures FourDigitYear(c) <==> FourDigitInstant(Instant(c))
  {
    DayNumberInYear(c.date);
    assert DaysBeforeYear(0) == 0 && DaysBeforeYear(10000) == 3652425;
    var y := c.date.year;
    if y < -1 {
      YearsGrow(y, 0);
    } else if 9999 < y {
      YearsGrow(9999, y);
    } else if 0 <= y {
      YearsGrow(-1, y + 1);
      YearsGrow(y, 10000);
    }
  }

  /** Normal text reads back exactly when its instant lies in the years that have four digits. */
  lemma NormalTextReadable(s: string, layout: Layout)
    requires NormalizeTimestamp(s).Some?
    ensures Parse(NormalizeTimestamp(s).value, layout).Some? <==> FourDigitInstant(StampInstant(Parse(s, Zoned).value))
  {
    var p := Parse(s, Zoned).value;
    var u := Utc(p);
    ToUtcInstant(p.local, p.offset);
    FourDigitRange(u);
    if FourDigitYear(u) {
      FormatParses(u, layout);
    } else {
      OddYearFails(u, layout);
    }
  }

  /**
   The source says a fraction "must not be truncated". It is: Go reads nine digits of it, so a fraction is
   accepted, and silently dropped, exactly when its first nine digits are zero.
   */
  lemma FractionRule(s: string, i: nat, end: nat, weight: nat)
    requires i <= end <= |s| && forall k | i <= k < end :: IsDigit(s[k])
    requires weight in {1, 10, 100, 1000, 10000, 100000, 1000000, 10000000, 100000000}
    ensures Scaled(s, i, end, weight) == 0
      <==> forall k | i <= k < end && k < i + WeightDigits(weight) :: s[k] == '0'
    decreases weight
  {
    if i < end {
      if weight == 1 {
        assert Scaled(s, i + 1, end, 0) == 0;
      } else {
        FractionRule(s, i + 1, end, weight / 10);
      }
    }
  }

  /** How many digits a run of weights down to one covers. */
  function WeightDigits(weight: nat): nat {
    if weight < 10 then weight else 1 + WeightDigits(weight / 10)
  }

  /** Where the fraction of a second may start: after the seconds, whose place depends on the digits of the hour. */
  function FractionStart(s: string): nat {
    if DigitAt(s, 12) then 19 else 18
  }

  /** The exact condition on a readable timestamp: the first nine digits of its fraction, if any, are zeros. */
  lemma NormalizesIffNineZeros(s: string)
    requires Parse(s, Zoned).Some?
    ensures var i := FractionStart(s);
            && i <= |s|
            && (NormalizeTimestamp(s).Some? <==> forall k | i < k < FractionEnd(s, i) && k <= i + 9 :: s[k] == '0')
  {
    hide Utc;
    var i := FractionStart(s);
    assert i <= |s| && Parse(s, Zoned).value.nanos == Nanoseconds(s, i);
    if FractionEnd(s, i) > i {
      NineDigits();
      DigitRun(s, i + 1);
      FractionRule(s, i + 1, FractionEnd(s, i), 100000000);
    }
  }

  lemma NineDigits()
    ensures WeightDigits(100000000) == 9
  {
    assert WeightDigits(10000) == 5;
  }

  lemma {:induction false} RunEndAt(s: string, i: nat, end: nat)
    requires i <= end <= |s| && !DigitAt(s, end) && forall k | i <= k < end :: IsDigit(s[k])
    ensures DigitRunEnd(s, i) == end
    decreases end - i
  {
    if i < end {
      RunEndAt(s, i + 1, end);
    }
  }

  const TEN_DIGITS: string := "2026-08-26T20:00:00.0000000001Z"

  lemma TenDigitsDate()
    ensures ParseDate(TEN_DIGITS) == Some(Date(2026, 8, 26))
  {
    assert ValidDate(Date(2026, 8, 26));
  }

  lemma TenDigitsClock()
    ensures var s := TEN_DIGITS;
            && |s| == 31
            && TwoDigits(s, 11) && CharAt(s, 13, ':') && TwoDigits(s, 14) && CharAt(s, 16, ':') && TwoDigits(s, 17)
            && Value2(s, 11) == 20 && Value2(s, 14) == 0 && Value2(s, 17) == 0
  {
  }

  lemma TenDigitsFraction()
    ensures var s := TEN_DIGITS;
            && |s| == 31 && s[19] == '.' && s[30] == 'Z'
            && (forall k | 20 <= k < 29 :: s[k] == '0') && s[29] == '1'
            && FractionEnd(s, 19) == 30
  {
    var s := TEN_DIGITS;
    assert forall k | 20 <= k < 30 :: IsDigit(s[k]);
    RunEndAt(s, 20, 30);
  }

  /** A fraction that is not zero, but whose tenth digit is the first to say so, is accepted. */
  lemma TruncatedFraction()
    ensures NormalizeTimestamp(TEN_DIGITS).Some?
    ensures var i := FractionStart(TEN_DIGITS);
            exists k | i < k < FractionEnd(TEN_DIGITS, i) && k < |TEN_DIGITS| :: TEN_DIGITS[k] != '0'
  {
    hide TEN_DIGITS, ParseDate, NormalizeTimestamp, FractionEnd, Nanoseconds;
    var s := TEN_DIGITS;
    TenDigitsDate();
    TenDigitsClock();
    TenDigitsFraction();
    assert Parse(s, Zoned).Some?;
    NormalizesIffNineZeros(s);
    assert s[29] == '1';
  }
}
