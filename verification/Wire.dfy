/** Big-endian integers and ASCII text as bytes. */
module Wire {
  import opened Prelude

  type Bytes = seq<byte>

  /** 256 to the power w. */
  function Range(w: nat): (r: nat)
    ensures r > 0
  {
    if w == 0 then 1 else 256 * Range(w - 1)
  }

  /** The low w bytes of v, most significant first. */
  function Big(w: nat, v: nat): (b: Bytes)
    ensures |b| == w
  {
    if w == 0 then [] else Big(w - 1, v / 256) + [v % 256]
  }

  function Unbig(b: Bytes): (v: nat) {
    if b == [] then 0 else 256 * Unbig(b[..|b| - 1]) + b[|b| - 1]
  }

  /** Encoding keeps a value modulo 256 to the width; within range it is exact. */
  lemma {:induction false} UnbigBig(w: nat, v: nat)
    ensures v < Range(w) ==> Unbig(Big(w, v)) == v
  {
    if w > 0 {
      UnbigBig(w - 1, v / 256);
      assert Big(w, v)[..w - 1] == Big(w - 1, v / 256);
    }
  }

  lemma {:induction false} BigUnbig(b: Bytes)
    ensures Unbig(b) < Range(|b|) && Big(|b|, Unbig(b)) == b
  {
    if b != [] {
      var init, last := b[..|b| - 1], b[|b| - 1];
      BigUnbig(init);
      assert b == init + [last];
      assert Unbig(b) / 256 == Unbig(init) && Unbig(b) % 256 == last;
    }
  }

  lemma MulGrows(d: nat, x: int)
    ensures x >= 1 ==> d * x >= d
    ensures x <= -1 ==> d * x + d <= 0
  {
    assert d * (x - 1) == d * x - d && d * (x + 1) == d * x + d;
  }

  lemma DivIs(v: nat, d: nat, q: nat, rem: nat)
    requires d > 0 && rem < d && v == d * q + rem
    ensures v / d == q
  {
    var x := v / d - q;
    assert d * x == d * (v / d) - d * q == rem - v % d;
    MulGrows(d, x);
  }

  lemma DivTwice(v: nat, r: nat)
    requires r > 0
    ensures v / (256 * r) == v / 256 / r
  {
    var q, low, high := v / 256 / r, v % 256, v / 256 % r;
    assert v == 256 * (r * q + high) + low == (256 * r) * q + (256 * high + low);
    DivIs(v, 256 * r, q, 256 * high + low);
  }

  /** Byte i counts the multiples of 256 to the number of bytes behind it. */
  lemma {:induction false} BigByte(w: nat, v: nat, i: nat)
    requires i < w
    ensures Big(w, v)[i] == v / Range(w - 1 - i) % 256
  {
    if i < w - 1 {
      BigByte(w - 1, v / 256, i);
      DivTwice(v, Range(w - 2 - i));
    }
  }

  lemma Widths()
    ensures Range(2) == 0x1_0000 && Range(4) == 0x1_0000_0000 && Range(8) == 0x1_0000_0000_0000_0000
  {
  }

  /** The bytes of an ASCII literal. */
  function Ascii(s: string): (b: Bytes)
    ensures |b| == |s|
    ensures forall i :: 0 <= i < |s| && s[i] as int < 256 ==> b[i] == s[i] as int
  {
    seq(|s|, i requires 0 <= i < |s| => s[i] as int % 256)
  }

  /** Where two concatenations with equal first parts agree, so do the rests. */
  lemma SplitAt(a: Bytes, x: Bytes, b: Bytes, y: Bytes)
    requires a + x == b + y && |a| == |b|
    ensures a == b && x == y
  {
    assert (a + x)[..|a|] == a && (b + y)[..|b|] == b;
    assert (a + x)[|a|..] == x && (b + y)[|b|..] == y;
  }

  lemma FirstStop(a: Bytes, x: Bytes, stop: byte)
    requires stop !in a
    ensures (a + [stop] + x)[|a|] == stop && forall i :: 0 <= i < |a| ==> (a + [stop] + x)[i] != stop
  {
  }

  /** Text that ends at its first `stop` byte is read back unambiguously. */
  lemma UntilStop(a: Bytes, x: Bytes, b: Bytes, y: Bytes, stop: byte)
    requires a + [stop] + x == b + [stop] + y && stop !in a && stop !in b
    ensures a == b && x == y
  {
    FirstStop(a, x, stop);
    FirstStop(b, y, stop);
    SplitAt(a + [stop], x, b + [stop], y);
    SplitAt(a, [stop], b, [stop]);
  }
}
