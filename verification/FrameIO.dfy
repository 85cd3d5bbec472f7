/** Frames through buffers and connections: the forms that fill and drain in place. */
module FrameIO {
  import opened Prelude
  import opened Wire
  import opened Frames

  /** Go's copy(a[at:], b). */
  method Put(a: array<byte>, at: nat, b: Bytes)
    requires at + |b| <= a.Length
    modifies a
    ensures a[..at + |b|] == old(a[..at]) + b && a[at + |b|..] == old(a[at + |b|..])
  {
    forall i | 0 <= i < |b| { a[at + i] := b[i]; }
  }

  method FillWrapped(header: Bytes, ftype: uint32, inner: Bytes) returns (out: array<byte>)
    ensures fresh(out) && out[..] == Wrapped(header, ftype, inner)
  {
    var n := |header|;
    out := new byte[2 + n + 4 + |inner|](_ => 0);
    Put(out, 0, Big(2, n));
    Put(out, 2, header);
    Put(out, 2 + n, Big(4, ftype));
    Put(out, 2 + n + 4, inner);
    assert out[..] == out[..2 + n + 4 + |inner|];
  }

  /** taggedWirePayload: sized first, then filled field by field. */
  method FillTagged(max: nat, f: Frame) returns (r: Result<array<byte>, Failure>)
    ensures r.Ok? ==> fresh(r.value) && TaggedWirePayload(max, f) == Ok(r.value[..])
    ensures r.Err? ==> TaggedWirePayload(max, f) == Err(r.error)
  {
    if f.ftype == TYPE_TAGGED { return Err(NestedTag); }
    if !HeaderOk(HeaderOf(f)) { return Err(InvalidID); }
    var header := PrintHeader(HeaderOf(f));
    var wire := WirePayload(f);
    if wire.Err? { return Err(wire.error); }
    if 2 + |header| + 4 + |wire.value| > max { return Err(TaggedTooLarge); }
    var out := FillWrapped(header, f.ftype, wire.value);
    return Ok(out);
  }

  /** A reliable byte stream: what is still to be read and what was written. */
  class Conn {
    var inbound: Bytes
    var outbound: Bytes

    constructor ()
      ensures inbound == [] && outbound == []
    {
      inbound, outbound := [], [];
    }

    /** WriteFrame: nothing is written on an error. */
    method WriteFrame(max: nat, f: Frame) returns (r: Result<(), Failure>)
      modifies this`outbound
      ensures r.Ok? ==> WireForm(max, f).Ok? && outbound == old(outbound) + WireForm(max, f).value
      ensures r.Err? ==> WireForm(max, f) == Err(r.error) && outbound == old(outbound)
    {
      var ftype := f.ftype;
      var payload: Bytes;
      if Tagged(f) {
        ftype := TYPE_TAGGED;
        var filled := FillTagged(max, f);
        if filled.Err? { return Err(filled.error); }
        payload := filled.value[..];
      } else {
        var wire := WirePayload(f);
        if wire.Err? { return Err(wire.error); }
        payload := wire.value;
      }
      var header := Big(4, ftype) + Big(4, |payload| % 0x1_0000_0000);
      if |payload| <= SINGLE_WRITE_MAX {
        outbound := outbound + (header + payload);
      } else {
        outbound := outbound + header;
        outbound := outbound + payload;
      }
      return Ok(());
    }

    /** io.ReadFull and readBounded: n bytes or, on a short stream, an error. */
    method ReadFull(n: nat) returns (r: Result<Bytes, Failure>)
      modifies this`inbound
      ensures r.Ok? <==> |old(inbound)| >= n
      ensures r.Ok? ==> r.value == old(inbound)[..n] && inbound == old(inbound)[n..]
      ensures r.Err? ==> r.error == ShortRead && inbound == []
    {
      if |inbound| < n {
        inbound := [];
        return Err(ShortRead);
      }
      r := Ok(inbound[..n]);
      inbound := inbound[n..];
    }

    /** ReadFrame: on success exactly one frame is consumed. */
    method ReadFrame(json: Unmarshal, max: nat) returns (r: Result<Frame, Failure>)
      modifies this`inbound
      ensures r.Ok? ==> Parse(json, max, old(inbound)) == Ok(Taken(r.value, inbound))
      ensures r.Err? ==> Parse(json, max, old(inbound)) == Err(r.error)
    {
      ghost var s := inbound;
      var header := ReadFull(8);
      if header.Err? { return Err(header.error); }
      assert header.value[..4] == s[..4] && header.value[4..] == s[4..8];
      BigUnbig(header.value[..4]);
      Widths();
      var ftype := Unbig(header.value[..4]);
      var length := Unbig(header.value[4..]);
      if length > max { return Err(FrameTooLarge); }
      var payload := ReadFull(length);
      if payload.Err? { return Err(payload.error); }
      assert payload.value == s[8..8 + length] && inbound == s[8 + length..];
      r := Unwrap(json, ftype, payload.value);
    }
  }

  /** singleWriteMax */
  const SINGLE_WRITE_MAX: nat := 0x1_0000
}
