/** The lexical forms that the generator (Go regular expressions) and the gate (Rego regex.match) both use. */
module Forms {

  predicate IsDigit(c: char) {
    '0' <= c <= '9'
  }

  /** The decimal text of a number. */
  function Digits(n: nat): string {
    if n < 10 then ['0' + n as char] else Digits(n / 10) + ['0' + (n % 10) as char]
  }

  lemma DigitsSpelled(n: nat, d: nat)
    requires d < 10
    ensures |Digits(d)| == 1 && Digits(d)[0] as int == '0' as int + d
    ensures n > 0 ==> Digits(10 * n + d) == Digits(n) + Digits(d)
  {
    assert (10 * n + d) / 10 == n && (10 * n + d) % 10 == d;
  }

  predicate IsLowerHex(c: char) {
    IsDigit(c) || 'a' <= c <= 'f'
  }

  predicate IsHex(c: char) {
    IsLowerHex(c) || 'A' <= c <= 'F'
  }

  const DIGEST_PREFIX: string := "sha256:"

  /** ^sha256:[0-9a-f]{64}$ */
  predicate CanonicalDigest(s: string) {
    && |s| == 71
    && s[..7] == DIGEST_PREFIX
    && forall i | 7 <= i < 71 :: IsLowerHex(s[i])
  }

  /** ^sha256:[0-9a-fA-F]{64}$ */
  predicate LooseDigest(s: string) {
    && |s| == 71
    && s[..7] == DIGEST_PREFIX
    && forall i | 7 <= i < 71 :: IsHex(s[i])
  }

  /** The hexadecimal text of a SHA-256 sum. */
  type Hex64 = s: string | |s| == 64 && forall i | 0 <= i < 64 :: IsLowerHex(s[i])
    witness seq(64, _ => '0')

  predicate IsIdStart(c: char) {
    IsDigit(c) || 'a' <= c <= 'z'
  }

  predicate IsIdChar(c: char) {
    IsIdStart(c) || c in "._:/-"
  }

  /** ^[a-z0-9][a-z0-9._:/-]{0,127}$ */
  predicate IdValue(s: string) {
    && 1 <= |s| <= 128
    && IsIdStart(s[0])
    && forall i | 1 <= i < |s| :: IsIdChar(s[i])
  }

  const REDACTED_PREFIX: string := "redacted:"

  predicate IsRedactedChar(c: char) {
    IsDigit(c) || 'a' <= c <= 'z' || 'A' <= c <= 'Z' || c in "._~-"
  }

  /** ^redacted:[A-Za-z0-9._~-]{1,112}$ */
  predicate RedactedId(s: string) {
    && 10 <= |s| <= 121
    && s[..9] == REDACTED_PREFIX
    && forall i | 9 <= i < |s| :: IsRedactedChar(s[i])
  }

  /** Unicode category Cc. */
  predicate IsControl(c: char) {
    c < ' ' || '\U{7F}' <= c <= '\U{9F}'
  }

  predicate NoControl(s: string) {
    forall i | 0 <= i < |s| :: !IsControl(s[i])
  }

  /** The length of s in UTF-8 bytes, which is what Go's len counts. */
  function Utf8Length(s: string): nat {
    if s == [] then 0 else Utf8Width(s[0]) + Utf8Length(s[1..])
  }

  function Utf8Width(c: char): nat {
    if c < '\U{80}' then 1
    else if c < '\U{800}' then 2
    else if c < '\U{10000}' then 3
    else 4
  }

  /** A byte bound is stricter than the same bound on characters. */
  lemma {:induction false} Utf8LengthAtLeast(s: string)
    ensures |s| <= Utf8Length(s)
  {
    if s != [] {
      Utf8LengthAtLeast(s[1..]);
    }
  }
}
