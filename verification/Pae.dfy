/** Bytes as Go's []byte. */
module RawBytes {
  newtype byte = x: int | 0 <= x < 256

  type Bytes = seq<byte>
}

/**
 The DSSE v1 pre-authentication encoding (the protocol's section "Signature Definition"), as the signer prints it,
 and a decoder that shows the encoding ambiguous for no input.
 */
module Pae {
  import opened Wrappers
  import opened RawBytes

  const SPACE: byte := 32

  /** "DSSEv1 " */
  const PREFIX: Bytes := [68, 83, 83, 69, 118, 49, 32]

  /** fmt's %d of a length. */
  function Decimal(n: nat): (d: Bytes)
    ensures d != []
  {
    if n < 10 then [48 + n as byte] else Decimal(n / 10) + [48 + (n % 10) as byte]
  }

  /** A length, a space and the bytes it counts. */
  function Frame(b: Bytes): Bytes {
    Decimal(|b|) + [SPACE] + b
  }

  /** dssePAE */
  function Encode(payloadType: Bytes, payload: Bytes): Bytes {
    PREFIX + Frame(payloadType) + [SPACE] + Frame(payload)
  }

  predicate IsDigit(b: byte) {
    48 <= b <= 57
  }

  /** The length of the run of digits at the start of s. */
  function DigitRun(s: Bytes): (n: nat)
    ensures n <= |s|
  {
    if s != [] && IsDigit(s[0]) then 1 + DigitRun(s[1..]) else 0
  }

  function Value(d: Bytes): int {
    if d == [] then 0 else 10 * Value(d[..|d| - 1]) + (d[|d| - 1] as int - 48)
  }

  /** Reads a frame off the front of s: what it held, and what follows it. */
  function Unframe(s: Bytes): Option<(Bytes, Bytes)> {
    var d := DigitRun(s);
    var n := Value(s[..d]);
    if n >= 0 && s[..d] == Decimal(n) && d + 1 + n <= |s| && s[d] == SPACE
    then Some((s[d + 1..d + 1 + n], s[d + 1 + n..]))
    else None
  }

  /** Reads an encoding back. */
  function Decode(s: Bytes): Option<(Bytes, Bytes)> {
    if |s| < 7 || s[..7] != PREFIX then None
    else
      var first :- Unframe(s[7..]);
      if first.1 == [] || first.1[0] != SPACE then None
      else
        var second :- Unframe(first.1[1..]);
        if second.1 == [] then Some((first.0, second.0)) else None
  }

  lemma {:induction false} DecimalValue(n: nat)
    ensures Value(Decimal(n)) == n
    ensures forall b | b in Decimal(n) :: IsDigit(b)
  {
    if n >= 10 {
      DecimalValue(n / 10);
      var d := Decimal(n);
      assert d[..|d| - 1] == Decimal(n / 10);
    }
  }

  lemma {:induction false} RunStops(d: Bytes, rest: Bytes)
    requires forall b | b in d :: IsDigit(b)
    requires rest != [] && !IsDigit(rest[0])
    ensures DigitRun(d + rest) == |d|
  {
    if d == [] {
      assert d + rest == rest;
    } else {
      assert d[0] in d;
      assert (d + rest)[1..] == d[1..] + rest;
      RunStops(d[1..], rest);
    }
  }

  /** A frame is read back whatever follows it: its length says where it ends. */
  lemma FrameRead(b: Bytes, rest: Bytes)
    ensures Unframe(Frame(b) + rest) == Some((b, rest))
  {
    var d := Decimal(|b|);
    var s := Frame(b) + rest;
    DecimalValue(|b|);
    assert s == d + ([SPACE] + b + rest);
    RunStops(d, [SPACE] + b + rest);
    assert s[..|d|] == d;
    assert s[|d| + 1..|d| + 1 + |b|] == b;
    assert s[|d| + 1 + |b|..] == rest;
  }

  lemma FrameReadOnly(s: Bytes)
    requires Unframe(s).Some?
    ensures s == Frame(Unframe(s).value.0) + Unframe(s).value.1
  {
    var d := DigitRun(s);
    var n := Value(s[..d]);
    assert s == s[..d] + [s[d]] + s[d + 1..d + 1 + n] + s[d + 1 + n..];
  }

  lemma EncodingDecodes(payloadType: Bytes, payload: Bytes)
    ensures Decode(Encode(payloadType, payload)) == Some((payloadType, payload))
  {
    hide Frame, Unframe, PREFIX;
    var s := Encode(payloadType, payload);
    var tail := [SPACE] + Frame(payload);
    assert |PREFIX| == 7 by { PrefixLength(); }
    assert s == PREFIX + (Frame(payloadType) + tail);
    FrameRead(payloadType, tail);
    assert tail[1..] == Frame(payload) == Frame(payload) + [];
    FrameRead(payload, []);
  }

  lemma PrefixLength()
    ensures |PREFIX| == 7
  {
  }

  lemma DecodedEncodes(s: Bytes)
    requires Decode(s).Some?
    ensures s == Encode(Decode(s).value.0, Decode(s).value.1)
  {
    hide Frame, Unframe, PREFIX;
    FrameReadOnly(s[7..]);
    var first := Unframe(s[7..]).value;
    FrameReadOnly(first.1[1..]);
    var second := Unframe(first.1[1..]).value;
    assert first.1 == [SPACE] + Frame(second.0);
    assert s == PREFIX + (Frame(first.0) + first.1);
  }

  /** Decoding recovers type and payload from every encoding, and succeeds on nothing but encodings. */
  lemma DecodeIffEncoded(s: Bytes, payloadType: Bytes, payload: Bytes)
    ensures Decode(s) == Some((payloadType, payload)) <==> s == Encode(payloadType, payload)
  {
    hide Encode, Decode;
    EncodingDecodes(payloadType, payload);
    if Decode(s).Some? {
      DecodedEncodes(s);
    }
  }

  /** What is signed determines both the payload type and the payload. */
  lemma EncodeInjective(t: Bytes, p: Bytes, u: Bytes, q: Bytes)
    requires Encode(t, p) == Encode(u, q)
    ensures t == u && p == q
  {
    DecodeIffEncoded(Encode(t, p), t, p);
    DecodeIffEncoded(Encode(u, q), u, q);
  }

  // ----- the printed form -----

  /** The decimal digits of a number, most significant first. */
  lemma DecimalDigits(n: nat, d: nat)
    requires d < 10
    ensures |Decimal(d)| == 1 && Decimal(d)[0] as int == '0' as int + d
    ensures n > 0 ==> Decimal(10 * n + d) == Decimal(n) + Decimal(d)
  {
    assert (10 * n + d) / 10 == n && (10 * n + d) % 10 == d;
  }

  /** The text as bytes, one for each ASCII character. */
  predicate Spells(b: Bytes, text: string) {
    |b| == |text| && forall i | 0 <= i < |b| :: b[i] as int == text[i] as int
  }

  lemma PrefixSpells()
    ensures Spells(PREFIX, "DSSEv1 ") && Spells([SPACE], " ")
  {
  }

  /** An encoding starts with the name of the protocol, and counts, separates and repeats its two parts. */
  lemma EncodingSpelled(payloadType: Bytes, payload: Bytes)
    ensures var s, n, m := Encode(payloadType, payload), Decimal(|payloadType|), Decimal(|payload|);
            && |s| == 7 + |n| + 1 + |payloadType| + 1 + |m| + 1 + |payload|
            && Spells(s[..7], "DSSEv1 ")
            && s[7..7 + |n|] == n
            && s[7 + |n|] as int == ' ' as int
            && s[8 + |n|..8 + |n| + |payloadType|] == payloadType
            && s[8 + |n| + |payloadType|] as int == ' ' as int
            && s[9 + |n| + |payloadType|..9 + |n| + |payloadType| + |m|] == m
            && s[9 + |n| + |payloadType| + |m|] as int == ' ' as int
            && s[10 + |n| + |payloadType| + |m|..] == payload
  {
    hide Decimal, PREFIX;
    PrefixSpells();
    var s, n, m := Encode(payloadType, payload), Decimal(|payloadType|), Decimal(|payload|);
    assert s == PREFIX + n + [SPACE] + payloadType + [SPACE] + m + [SPACE] + payload;
    assert s[..7] == PREFIX;
  }
}
