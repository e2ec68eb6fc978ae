/** UTF-8 (RFC 3629, section 3), which is what Go's len counts: an encoder, and a decoder that recovers every text. */
module Utf8 {
  import opened Wrappers
  import opened RawBytes
  import Forms

  function EncodeChar(c: char): Bytes {
    var n := c as int;
    if n < 0x80 then [n as byte]
    else if n < 0x800 then [(0xC0 + n / 64) as byte, Continuation(n)]
    else if n < 0x1_0000 then [(0xE0 + n / 4096) as byte, Continuation(n / 64), Continuation(n)]
    else [(0xF0 + n / 262144) as byte, Continuation(n / 4096), Continuation(n / 64), Continuation(n)]
  }

  /** A byte that carries six bits. */
  function Continuation(n: nat): byte {
    (0x80 + n % 64) as byte
  }

  function Encode(s: string): Bytes {
    if s == [] then [] else EncodeChar(s[0]) + Encode(s[1..])
  }

  /** How many bytes a character takes, by its first byte. */
  function LeadLength(lead: byte): nat {
    if lead < 0x80 then 1 else if lead < 0xE0 then 2 else if lead < 0xF0 then 3 else 4
  }

  function SixBits(b: byte): nat {
    b as nat % 64
  }

  function CodePoint(s: Bytes): nat
    requires s != [] && LeadLength(s[0]) <= |s|
  {
    var lead := s[0] as nat;
    match LeadLength(s[0])
    case 1 => lead
    case 2 => lead % 32 * 64 + SixBits(s[1])
    case 3 => lead % 16 * 4096 + SixBits(s[1]) * 64 + SixBits(s[2])
    case _ => lead % 8 * 262144 + SixBits(s[1]) * 4096 + SixBits(s[2]) * 64 + SixBits(s[3])
  }

  predicate ScalarValue(n: nat) {
    n < 0xD800 || 0xE000 <= n < 0x11_0000
  }

  function Decode(s: Bytes): Option<string> {
    if s == [] then Some([])
    else if LeadLength(s[0]) <= |s| && ScalarValue(CodePoint(s)) then
      var rest :- Decode(s[LeadLength(s[0])..]);
      Some([CodePoint(s) as char] + rest)
    else None
  }

  lemma Carried(n: nat)
    ensures SixBits(Continuation(n)) == n % 64
  {
  }

  lemma Regrouped(n: nat)
    ensures n == n / 64 * 64 + n % 64
    ensures n / 4096 == n / 64 / 64 && n / 262144 == n / 64 / 64 / 64
  {
  }

  lemma LeadBits(k: nat)
    ensures k < 32 ==> (0xC0 + k) % 32 == k
    ensures k < 16 ==> (0xE0 + k) % 16 == k
    ensures k < 8 ==> (0xF0 + k) % 8 == k
  {
  }

  lemma EncodedChar(c: char)
    ensures var b := EncodeChar(c);
            && |b| == Forms.Utf8Width(c) && b != [] && LeadLength(b[0]) == |b|
            && CodePoint(b) == c as nat
  {
    hide Continuation, SixBits;
    var n := c as nat;
    Carried(n);
    Carried(n / 64);
    Carried(n / 4096);
    Regrouped(n);
    Regrouped(n / 64);
    Regrouped(n / 4096);
    if 0x80 <= n < 0x800 {
      LeadBits(n / 64);
    } else if 0x800 <= n < 0x1_0000 {
      LeadBits(n / 4096);
    } else if 0x1_0000 <= n {
      LeadBits(n / 262144);
    }
  }

  lemma CodePointPrefix(b: Bytes, rest: Bytes)
    requires b != [] && LeadLength(b[0]) == |b|
    ensures CodePoint(b + rest) == CodePoint(b)
  {
  }

  /** The width the generator adds up is the size of the encoding, and the encoding loses nothing. */
  lemma {:induction false} EncodingRead(s: string)
    ensures |Encode(s)| == Forms.Utf8Length(s)
    ensures Decode(Encode(s)) == Some(s)
  {
    if s != [] {
      EncodingRead(s[1..]);
      EncodedChar(s[0]);
      var b, rest := EncodeChar(s[0]), Encode(s[1..]);
      CodePointPrefix(b, rest);
      assert (b + rest)[|b|..] == rest && (b + rest)[0] == b[0];
      assert s == [s[0]] + s[1..];
    }
  }
}
