/** Trace frames: timing around an inner message. */
module TraceCodec {
  import opened Prelude
  import opened Wire
  import opened Frames

  /** sentAtNs is an int64, carried as its two's complement. */
  datatype Trace = Trace(sentAtNs: int, inner: uint32, payload: Bytes)

  const TWO63: int := 0x8000_0000_0000_0000

  function Unsigned(x: int): (u: uint64)
    requires -TWO63 <= x < TWO63
  {
    if x < 0 then x + 2 * TWO63 else x
  }

  function Signed(u: uint64): int { if u < TWO63 then u else u - 2 * TWO63 }

  function EncodeTrace(t: Trace): Frame
    requires -TWO63 <= t.sentAtNs < TWO63
  {
    Plain(TYPE_TRACE, Big(4, t.inner) + Big(8, Unsigned(t.sentAtNs)) + t.payload, [])
  }

  function DecodeTrace(f: Frame): Option<Trace> {
    if f.ftype != TYPE_TRACE || |f.payload| < 12 then None
    else
      BigUnbig(f.payload[..4]);
      BigUnbig(f.payload[4..12]);
      Widths();
      Some(Trace(Signed(Unbig(f.payload[4..12])), Unbig(f.payload[..4]), f.payload[12..]))
  }

  /** Every trace comes back as sent, and every trace frame is the encoding of what it decodes to. */
  lemma TraceRoundTrip(t: Trace, f: Frame)
    ensures -TWO63 <= t.sentAtNs < TWO63 ==> DecodeTrace(EncodeTrace(t)) == Some(t)
    ensures DecodeTrace(f) == Some(t) ==> -TWO63 <= t.sentAtNs < TWO63 && EncodeTrace(t).payload == f.payload
  {
    Widths();
    if -TWO63 <= t.sentAtNs < TWO63 {
      UnbigBig(4, t.inner);
      UnbigBig(8, Unsigned(t.sentAtNs));
      var p := EncodeTrace(t).payload;
      assert p[..4] == Big(4, t.inner) && p[4..12] == Big(8, Unsigned(t.sentAtNs)) && p[12..] == t.payload;
    }
    if DecodeTrace(f) == Some(t) {
      BigUnbig(f.payload[..4]);
      BigUnbig(f.payload[4..12]);
      assert f.payload == f.payload[..4] + f.payload[4..12] + f.payload[12..];
    }
  }
}
