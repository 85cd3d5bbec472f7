/** The control frames of a file stream, as bytes. */
module StreamCodec {
  import opened Prelude
  import opened Wire
  import opened Frames
  import opened FrameLaws

  const ID_LEN: nat := 16
  const HASH_LEN: nat := 32

  datatype Control =
    | Init(size: uint64, hash: Bytes, chunkSize: uint32, name: Bytes)
    | Chunk(off: uint64, data: Bytes)
    | Ack(off: uint64)
    | Done
    | InitAck(off: uint64)
    | Complete(ok: bool, msg: Bytes)
    | Abort(reason: Bytes)

  /** Fixed-size fields have their size. */
  predicate Proper(id: Bytes, c: Control) { |id| == ID_LEN && (c.Init? ==> |c.hash| == HASH_LEN) }

  function Kind(c: Control): byte {
    match c
    case Init(_, _, _, _) => 1
    case Chunk(_, _) => 2
    case Ack(_) => 3
    case Done => 4
    case InitAck(_) => 5
    case Complete(_, _) => 6
    case Abort(_) => 7
  }

  /** encodeInit cuts a name at 255 bytes. */
  function Clip(name: Bytes): Bytes { if |name| > MAX_FILENAME_LEN then name[..MAX_FILENAME_LEN] else name }

  function Body(c: Control): Bytes {
    match c
    case Init(size, hash, chunkSize, name) => Big(8, size) + hash + Big(4, chunkSize) + Big(2, |Clip(name)|) + Clip(name)
    case Chunk(off, data) => Big(8, off) + data
    case Ack(off) => Big(8, off)
    case Done => []
    case InitAck(off) => Big(8, off)
    case Complete(ok, msg) => [if ok then 0 else 1] + msg
    case Abort(reason) => reason
  }

  function Encode(id: Bytes, c: Control): Frame {
    Plain(TYPE_FILE_STREAM, [Kind(c)] + id + Body(c), [])
  }

  function DecodeInit(b: Bytes): Option<Control> {
    if |b| < 46 || 46 + Unbig(b[44..46]) != |b| then None
    else
      BigUnbig(b[..8]);
      BigUnbig(b[40..44]);
      Widths();
      Some(Init(Unbig(b[..8]), b[8..40], Unbig(b[40..44]), b[46..]))
  }

  function DecodeOffset(b: Bytes): Option<uint64> {
    if |b| < 8 then None
    else
      BigUnbig(b[..8]);
      Widths();
      Some(Unbig(b[..8]))
  }

  function DecodeBody(kind: byte, b: Bytes): Option<Control> {
    if kind == 1 then DecodeInit(b)
    else if kind == 2 then
      match DecodeOffset(b) { case Some(off) => Some(Chunk(off, b[8..])) case None => None }
    else if kind == 3 then
      match DecodeOffset(b) { case Some(off) => Some(Ack(off)) case None => None }
    else if kind == 4 then Some(Done)
    else if kind == 5 then
      match DecodeOffset(b) { case Some(off) => Some(InitAck(off)) case None => None }
    else if kind == 6 then
      if b == [] then Some(Complete(false, Ascii("malformed complete"))) else Some(Complete(b[0] == 0, b[1..]))
    else if kind == 7 then Some(Abort(b))
    else None
  }

  datatype Message = Message(id: Bytes, control: Control)

  function Decode(f: Frame): Option<Message> {
    if f.ftype != TYPE_FILE_STREAM || |f.payload| < 1 + ID_LEN then None
    else
      match DecodeBody(f.payload[0], f.payload[1 + ID_LEN..])
      case Some(c) => Some(Message(f.payload[1..1 + ID_LEN], c))
      case None => None
  }

  /** What is left of a message on the wire. */
  function Clipped(c: Control): Control { if c.Init? then c.(name := Clip(c.name)) else c }

  lemma FiveParts(a: Bytes, b: Bytes, c: Bytes, d: Bytes, e: Bytes)
    requires |a| == 8 && |b| == 32 && |c| == 4 && |d| == 2
    ensures var s := a + b + c + d + e; s[..8] == a && s[8..40] == b && s[40..44] == c && s[44..46] == d && s[46..] == e
  {
    var s := a + b + c + d + e;
    assert s == a + (b + c + d + e) && s[..8] == a;
    assert s == (a + b) + (c + d + e) && s[8..40] == b;
    assert s[40..44] == c && s[44..46] == d && s[46..] == e;
  }

  lemma InitParts(size: uint64, hash: Bytes, chunkSize: uint32, name: Bytes)
    requires |hash| == HASH_LEN && |name| <= MAX_FILENAME_LEN
    ensures DecodeInit(Body(Init(size, hash, chunkSize, name))) == Some(Init(size, hash, chunkSize, name))
  {
    Widths();
    UnbigBig(8, size);
    UnbigBig(4, chunkSize);
    UnbigBig(2, |name|);
    FiveParts(Big(8, size), hash, Big(4, chunkSize), Big(2, |name|), name);
  }

  lemma OffsetParts(off: uint64, data: Bytes)
    ensures DecodeOffset(Big(8, off) + data) == Some(off) && (Big(8, off) + data)[8..] == data
  {
    Widths();
    FrontField(8, off, data);
  }

  lemma BodyRoundTrip(c: Control)
    requires c.Init? ==> |c.hash| == HASH_LEN
    ensures DecodeBody(Kind(c), Body(c)) == Some(Clipped(c))
  {
    match c
    case Init(size, hash, chunkSize, name) =>
      InitParts(size, hash, chunkSize, Clip(name));
      assert Body(c) == Body(Clipped(c));
    case Chunk(off, data) => OffsetParts(off, data);
    case Ack(off) =>
      OffsetParts(off, []);
      assert Big(8, off) + [] == Body(c);
    case InitAck(off) =>
      OffsetParts(off, []);
      assert Big(8, off) + [] == Body(c);
    case Complete(ok, msg) =>
      assert Body(c)[1..] == msg;
    case _ =>
  }

  lemma ControlRoundTrip(id: Bytes, c: Control)
    requires Proper(id, c)
    ensures Decode(Encode(id, c)) == Some(Message(id, Clipped(c)))
  {
    var p := Encode(id, c).payload;
    assert p[1..1 + ID_LEN] == id && p[1 + ID_LEN..] == Body(c);
    BodyRoundTrip(c);
  }

  /** A control message a peer sends is what the other peer decodes from the
      stream, exactly if it fits the frame cap and carries no INIT name over 255
      bytes; one that fits always arrives, at most with its name cut. */
  lemma ControlOverWire(json: Unmarshal, max: nat, id: Bytes, c: Control, rest: Bytes)
    requires ReadsBack(json) && 0x1_0000 <= max < 0x8000_0000 && Proper(id, c)
    ensures WireForm(max, Encode(id, c)).Ok?
    ensures var r, fits := Parse(json, max, WireForm(max, Encode(id, c)).value + rest), 1 + ID_LEN + |Body(c)| <= max;
      && (fits ==> r == Ok(Taken(Encode(id, c), rest)) && Decode(r.value.frame) == Some(Message(id, Clipped(c))))
      && ((r.Ok? && r.value.rest == rest && Decode(r.value.frame) == Some(Message(id, c)))
          <==> fits && (c.Init? ==> |c.name| <= MAX_FILENAME_LEN))
  {
    ControlRoundTrip(id, c);
    var f := Encode(id, c);
    if 1 + ID_LEN + |Body(c)| <= max {
      SentIsDelivered(json, max, f, rest);
      assert c.Init? && |c.name| > MAX_FILENAME_LEN ==> |Clip(c.name)| != |c.name|;
    } else {
      OversizeRest(json, max, f, rest);
    }
  }

  /** Of a payload over the cap something is left on the stream, or nothing is read. */
  lemma OversizeRest(json: Unmarshal, max: nat, f: Frame, rest: Bytes)
    requires max < 0x8000_0000 && !Tagged(f) && f.ftype == TYPE_FILE_STREAM && |f.payload| > max
    ensures WireForm(max, f).Ok?
    ensures var r := Parse(json, max, WireForm(max, f).value + rest); r.Ok? ==> r.value.rest != rest
  {
    LengthWraps(json, max, f, rest);
    assert Announced(f) <= max ==> |f.payload[Announced(f)..] + rest| > |rest|;
  }
}
