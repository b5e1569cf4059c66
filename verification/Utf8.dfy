/** UTF-8 (RFC 3629), with the replacement of ill-formed input that `from_utf8_lossy` performs. */
module Utf8 {
  type Byte = b: nat | b < 256

  const REPLACEMENT: char := '\U{FFFD}'

  function EncodeChar(c: char): (bytes: seq<Byte>)
    ensures bytes != []
    ensures forall i | 0 <= i < |bytes| :: bytes[i] < 128 ==> bytes == [c as int]
  {
    var n := c as int;
    if n < 0x80 then [n]
    else if n < 0x800 then [0xC0 + n / 64, 0x80 + n % 64]
    else if n < 0x1_0000 then [0xE0 + n / 4096, 0x80 + n / 64 % 64, 0x80 + n % 64]
    else [0xF0 + n / 262144, 0x80 + n / 4096 % 64, 0x80 + n / 64 % 64, 0x80 + n % 64]
  }

  function Encode(text: string): seq<Byte> {
    if text == [] then [] else EncodeChar(text[0]) + Encode(text[1..])
  }

  predicate Tail(b: Byte) {
    0x80 <= b < 0xC0
  }

  /** The second bytes that may follow a lead byte of three or four. */
  predicate SecondOk(lead: Byte, second: Byte) {
    if lead == 0xE0 then 0xA0 <= second < 0xC0
    else if lead == 0xED then 0x80 <= second < 0xA0
    else if lead == 0xF0 then 0x90 <= second < 0xC0
    else if lead == 0xF4 then 0x80 <= second < 0x90
    else Tail(second)
  }

  /** The payload bits of a byte whose marker is `base`. */
  function Low(b: Byte, base: int): int {
    b as int - base
  }

  /** One character off the front: a well-formed one, or a replacement for the longest
      ill-formed beginning of one. */
  function DecodeOne(b: seq<Byte>): (r: (char, nat))
    requires b != []
    ensures 0 < r.1 <= |b|
  {
    var x := b[0];
    if x < 0x80 then (x as char, 1)
    else if x < 0xC2 || x > 0xF4 then (REPLACEMENT, 1)
    else if x < 0xE0 then
      if |b| > 1 && Tail(b[1]) then ((Low(x, 0xC0) * 64 + Low(b[1], 0x80)) as char, 2) else (REPLACEMENT, 1)
    else if |b| < 2 || !SecondOk(x, b[1]) then (REPLACEMENT, 1)
    else if |b| < 3 || !Tail(b[2]) then (REPLACEMENT, 2)
    else if x < 0xF0 then
      ((Low(x, 0xE0) * 4096 + Low(b[1], 0x80) * 64 + Low(b[2], 0x80)) as char, 3)
    else if |b| < 4 || !Tail(b[3]) then (REPLACEMENT, 3)
    else
      ((Low(x, 0xF0) * 262144 + Low(b[1], 0x80) * 4096 + Low(b[2], 0x80) * 64 + Low(b[3], 0x80)) as char, 4)
  }

  /** `String::from_utf8_lossy`, on any bytes. */
  function Lossy(b: seq<Byte>): string {
    if b == [] then [] else [DecodeOne(b).0] + Lossy(b[DecodeOne(b).1..])
  }

  lemma DecodeEncoded(c: char, rest: seq<Byte>)
    ensures DecodeOne(EncodeChar(c) + rest) == (c, |EncodeChar(c)|)
  {
    var n := c as int;
    var b := EncodeChar(c) + rest;
    assert b[0] == EncodeChar(c)[0];
    if n < 0x80 {
    } else if n < 0x800 {
      assert b[1] == 0x80 + n % 64;
    } else if n < 0x1_0000 {
      assert b[1] == 0x80 + n / 64 % 64 && b[2] == 0x80 + n % 64;
      assert n / 4096 == n / 64 / 64;
    } else {
      assert b[1] == 0x80 + n / 4096 % 64 && b[2] == 0x80 + n / 64 % 64 && b[3] == 0x80 + n % 64;
      assert n / 4096 == n / 64 / 64 && n / 262144 == n / 4096 / 64;
    }
  }

  /** Decoding what was encoded gives the text back, for every text. */
  lemma {:induction false} RoundTrip(text: string)
    ensures Lossy(Encode(text)) == text
    decreases |text|
  {
    if text != [] {
      var first := EncodeChar(text[0]);
      DecodeEncoded(text[0], Encode(text[1..]));
      assert Encode(text)[|first|..] == Encode(text[1..]);
      RoundTrip(text[1..]);
    }
  }

  lemma {:induction false} EncodeConcat(a: string, b: string)
    ensures Encode(a + b) == Encode(a) + Encode(b)
    decreases |a|
  {
    if a == [] {
      assert a + b == b;
    } else {
      assert (a + b)[1..] == a[1..] + b;
      EncodeConcat(a[1..], b);
    }
  }

  /** An ASCII byte occurs in the encoding only where its character occurs in the text. */
  lemma {:induction false} AsciiOnlyFromText(text: string, x: Byte)
    requires x < 128 && x as char !in text
    ensures x !in Encode(text)
    decreases |text|
  {
    if text != [] {
      AsciiOnlyFromText(text[1..], x);
      assert text[0] in text;
      assert forall i | 0 <= i < |EncodeChar(text[0])| :: EncodeChar(text[0])[i] != x;
    }
  }
}
