/** The lexical forms as sets of characters spelled out, and lengths. */
module FormsMeaning {
  import Forms

  const DIGITS: string := "0123456789"
  const LOWER: string := "abcdefghijklmnopqrstuvwxyz"
  const UPPER: string := "ABCDEFGHIJKLMNOPQRSTUVWXYZ"

  lemma DigitMeans(c: char)
    ensures Forms.IsDigit(c) <==> c in DIGITS
  {
    assert forall i | 0 <= i < 10 :: DIGITS[i] as int == '0' as int + i;
    if Forms.IsDigit(c) {
      assert DIGITS[c as int - '0' as int] == c;
    }
  }

  lemma LowerMeans(c: char)
    ensures 'a' <= c <= 'z' <==> c in LOWER
  {
    LowerAt();
    if 'a' <= c <= 'z' {
      assert LOWER[c as int - 'a' as int] == c;
    }
  }

  lemma LowerAt()
    ensures |LOWER| == 26 && forall i | 0 <= i < 26 :: LOWER[i] as int == 'a' as int + i
  {
  }

  lemma UpperMeans(c: char)
    ensures 'A' <= c <= 'Z' <==> c in UPPER
  {
    UpperAt();
    if 'A' <= c <= 'Z' {
      assert UPPER[c as int - 'A' as int] == c;
    }
  }

  lemma UpperAt()
    ensures |UPPER| == 26 && forall i | 0 <= i < 26 :: UPPER[i] as int == 'A' as int + i
  {
  }

  /** The characters of a text are all among the given ones. */
  predicate Over(s: string, alphabet: string) {
    forall i | 0 <= i < |s| :: s[i] in alphabet
  }

  lemma LowerHexMeans(c: char)
    ensures Forms.IsLowerHex(c) <==> c in DIGITS + "abcdef"
  {
    DigitMeans(c);
    assert forall x :: x in DIGITS + "abcdef" <==> x in DIGITS || x in "abcdef";
    FirstSix(c);
  }

  lemma FirstSix(c: char)
    ensures 'a' <= c <= 'f' <==> c in "abcdef"
    ensures 'A' <= c <= 'F' <==> c in "ABCDEF"
  {
    var low, high := "abcdef", "ABCDEF";
    assert forall i | 0 <= i < 6 :: low[i] as int == 'a' as int + i && high[i] as int == 'A' as int + i;
    if 'a' <= c <= 'f' {
      assert low[c as int - 'a' as int] == c;
    }
    if 'A' <= c <= 'F' {
      assert high[c as int - 'A' as int] == c;
    }
  }

  lemma HexMeans(c: char)
    ensures Forms.IsHex(c) <==> c in DIGITS + "abcdef" + "ABCDEF"
  {
    LowerHexMeans(c);
    FirstSix(c);
    var low := DIGITS + "abcdef";
    assert c in low + "ABCDEF" <==> c in low || c in "ABCDEF";
  }

  lemma IdStartMeans(c: char)
    ensures Forms.IsIdStart(c) <==> c in LOWER + DIGITS
  {
    hide LOWER, DIGITS;
    DigitMeans(c);
    LowerMeans(c);
    assert c in LOWER + DIGITS <==> c in LOWER || c in DIGITS;
  }

  lemma IdCharMeans(c: char)
    ensures Forms.IsIdChar(c) <==> c in LOWER + DIGITS + "._:/-"
  {
    hide LOWER, DIGITS;
    IdStartMeans(c);
    var start := LOWER + DIGITS;
    assert c in start + "._:/-" <==> c in start || c in "._:/-";
  }

  lemma RedactedCharMeans(c: char)
    ensures Forms.IsRedactedChar(c) <==> c in UPPER + LOWER + DIGITS + "._~-"
  {
    hide LOWER, DIGITS, UPPER;
    DigitMeans(c);
    LowerMeans(c);
    UpperMeans(c);
    var letters := UPPER + LOWER;
    var start := letters + DIGITS;
    assert c in letters <==> c in UPPER || c in LOWER;
    assert c in start <==> c in letters || c in DIGITS;
    assert c in start + "._~-" <==> c in start || c in "._~-";
  }

  /** sha256: and sixty-four lower-case hexadecimal digits. */
  lemma DigestMeans(s: string)
    ensures Forms.CanonicalDigest(s) <==>
      exists sum: string :: |sum| == 64 && Over(sum, DIGITS + "abcdef") && s == "sha256:" + sum
  {
    hide DIGITS, Forms.IsLowerHex;
    forall c: char
      ensures Forms.IsLowerHex(c) <==> c in DIGITS + "abcdef"
    {
      LowerHexMeans(c);
    }
    if Forms.CanonicalDigest(s) {
      var sum := s[7..];
      assert s == "sha256:" + sum && |sum| == 64 && Over(sum, DIGITS + "abcdef");
    }
    if sum: string :| |sum| == 64 && Over(sum, DIGITS + "abcdef") && s == "sha256:" + sum {
      assert s[..7] == "sha256:" && forall i | 7 <= i < 71 :: s[i] == sum[i - 7];
    }
  }

  /** The same, with either case of digit. */
  lemma LooseDigestMeans(s: string)
    ensures Forms.LooseDigest(s) <==>
      exists sum: string :: |sum| == 64 && Over(sum, DIGITS + "abcdef" + "ABCDEF") && s == "sha256:" + sum
  {
    hide DIGITS, Forms.IsHex;
    forall c: char
      ensures Forms.IsHex(c) <==> c in DIGITS + "abcdef" + "ABCDEF"
    {
      HexMeans(c);
    }
    if Forms.LooseDigest(s) {
      var sum := s[7..];
      assert s == "sha256:" + sum && |sum| == 64 && Over(sum, DIGITS + "abcdef" + "ABCDEF");
    }
    if sum: string :| |sum| == 64 && Over(sum, DIGITS + "abcdef" + "ABCDEF") && s == "sha256:" + sum {
      assert s[..7] == "sha256:" && forall i | 7 <= i < 71 :: s[i] == sum[i - 7];
    }
  }

  /** A letter or digit, and at most 127 more characters. */
  lemma IdMeans(s: string)
    ensures Forms.IdValue(s) <==>
      1 <= |s| <= 128 && s[0] in LOWER + DIGITS && Over(s, LOWER + DIGITS + "._:/-")
  {
    hide LOWER, DIGITS, Forms.IsIdChar, Forms.IsIdStart;
    forall c: char
      ensures Forms.IsIdChar(c) <==> c in LOWER + DIGITS + "._:/-"
      ensures Forms.IsIdStart(c) <==> c in LOWER + DIGITS
    {
      IdCharMeans(c);
      IdStartMeans(c);
    }
    var start := LOWER + DIGITS;
    assert forall c :: c in start ==> c in start + "._:/-";
  }

  /** redacted: and one to 112 characters. */
  lemma RedactedMeans(s: string)
    ensures Forms.RedactedId(s) <==>
      exists rest: string ::
        1 <= |rest| <= 112 && Over(rest, UPPER + LOWER + DIGITS + "._~-") && s == "redacted:" + rest
  {
    hide LOWER, DIGITS, UPPER, Forms.IsRedactedChar;
    forall c: char
      ensures Forms.IsRedactedChar(c) <==> c in UPPER + LOWER + DIGITS + "._~-"
    {
      RedactedCharMeans(c);
    }
    if Forms.RedactedId(s) {
      var rest := s[9..];
      assert s == "redacted:" + rest && 1 <= |rest| <= 112 && Over(rest, UPPER + LOWER + DIGITS + "._~-");
    }
    if rest: string :| 1 <= |rest| <= 112 && Over(rest, UPPER + LOWER + DIGITS + "._~-") && s == "redacted:" + rest {
      assert s[..9] == "redacted:" && forall i | 9 <= i < |s| :: s[i] == rest[i - 9];
    }
  }

  /** No character of the categories of control codes: U+0000 to U+001F and U+007F to U+009F. */
  lemma NoControlMeans(s: string)
    ensures Forms.NoControl(s) <==> forall c | c in s :: 32 <= c as int && !(127 <= c as int <= 159)
  {
    if forall c | c in s :: 32 <= c as int && !(127 <= c as int <= 159) {
      assert forall i | 0 <= i < |s| :: s[i] in s;
    }
  }
}
