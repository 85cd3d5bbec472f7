/** The UTF-8 scan is right: it accepts exactly the encodings of Unicode text
    (sections 3 and 4 of RFC 3629). */
module Utf8 {
  import opened Prelude
  import opened Wire
  import opened Frames

  /** A Unicode scalar value: a code point that is not a surrogate. */
  type Scalar = c: int | 0 <= c < 0xD800 || 0xE000 <= c < 0x11_0000

  function Encode(c: Scalar): (b: Bytes)
    ensures 1 <= |b| <= 4
  {
    if c < 0x80 then [c]
    else if c < 0x800 then [0xC0 + c / 64, 0x80 + c % 64]
    else if c < 0x1_0000 then [0xE0 + c / 4096, 0x80 + c / 64 % 64, 0x80 + c % 64]
    else [0xF0 + c / 262144, 0x80 + c / 4096 % 64, 0x80 + c / 64 % 64, 0x80 + c % 64]
  }

  function EncodeAll(text: seq<Scalar>): Bytes {
    if text == [] then [] else Encode(text[0]) + EncodeAll(text[1..])
  }

  /** The scalar whose digits to the base 64 are x, y and z. */
  function Digits(x: int, y: int, z: int): int { (x * 64 + y) * 64 + z }

  lemma DigitsOf(x: nat, y: nat, z: nat)
    requires y < 64 && z < 64
    ensures var c := Digits(x, y, z); c / 4096 == x && c / 64 % 64 == y && c % 64 == z
  {
  }

  /** The scan steps over exactly one encoded scalar. */
  lemma HeadOfEncoded(c: Scalar, rest: Bytes)
    ensures Utf8Head(Encode(c) + rest) == |Encode(c)|
  {
  }

  lemma ThreeBytes(b: Bytes) returns (c: Scalar)
    requires |b| >= 3 && Utf8Head(b) == 3
    ensures b[..3] == Encode(c)
  {
    var x, y, z := b[0] - 0xE0, b[1] - 0x80, b[2] - 0x80;
    DigitsOf(x, y, z);
    c := Digits(x, y, z);
  }

  lemma FourBytes(b: Bytes) returns (c: Scalar)
    requires |b| >= 4 && Utf8Head(b) == 4
    ensures b[..4] == Encode(c)
  {
    var w: int, x: int, y, z := b[0] - 0xF0, b[1] - 0x80, b[2] - 0x80, b[3] - 0x80;
    DigitsOf(w * 64 + x, y, z);
    c := Digits(w * 64 + x, y, z);
    assert c / 262144 == c / 4096 / 64 == w && c / 4096 % 64 == x;
  }

  /** Whatever the scan steps over is the encoding of a scalar. */
  lemma HeadIsEncoded(b: Bytes) returns (c: Scalar)
    requires b != [] && Utf8Head(b) > 0
    ensures b[..Utf8Head(b)] == Encode(c)
  {
    if Utf8Head(b) == 1 { c := b[0]; }
    else if Utf8Head(b) == 2 { c := Digits(0, b[0] - 0xC0, b[1] - 0x80); }
    else if Utf8Head(b) == 3 { c := ThreeBytes(b); }
    else { c := FourBytes(b); }
  }

  ghost predicate IsText(b: Bytes) { exists text :: EncodeAll(text) == b }

  lemma {:induction false} EncodedIsValid(text: seq<Scalar>)
    ensures Utf8Valid(EncodeAll(text))
  {
    if text != [] {
      HeadOfEncoded(text[0], EncodeAll(text[1..]));
      EncodedIsValid(text[1..]);
      assert EncodeAll(text)[|Encode(text[0])|..] == EncodeAll(text[1..]);
    }
  }

  lemma {:induction false} ValidIsEncoded(b: Bytes) returns (text: seq<Scalar>)
    requires Utf8Valid(b)
    ensures EncodeAll(text) == b
    decreases |b|
  {
    text := [];
    if b != [] {
      var n := Utf8Head(b);
      var c := HeadIsEncoded(b);
      var rest := ValidIsEncoded(b[n..]);
      text := [c] + rest;
      assert b == b[..n] + b[n..] && text[1..] == rest;
    }
  }

  /** A byte string is accepted exactly if it encodes some Unicode text. */
  lemma ValidIffText(b: Bytes)
    ensures Utf8Valid(b) <==> IsText(b)
  {
    if Utf8Valid(b) { var text := ValidIsEncoded(b); }
    if IsText(b) {
      var text :| EncodeAll(text) == b;
      EncodedIsValid(text);
    }
  }
}
