/**
 * The frame codec (`dataexchange.go`) and the tagged wrapper (`tagged.go`).
 *
 * The wrapper's JSON header is printed as json.Marshal prints it for the two
 * keys; json.Unmarshal is a parameter, of which only one thing is known: it
 * reads a printed header back.
 */
module Frames {
  import opened Prelude
  import opened Wire

  type uint32 = x: int | 0 <= x < 0x1_0000_0000
  type uint64 = x: int | 0 <= x < 0x1_0000_0000_0000_0000

  const TYPE_TEXT: uint32 := 1
  const TYPE_BINARY: uint32 := 2
  const TYPE_JSON: uint32 := 3
  const TYPE_FILE: uint32 := 4
  const TYPE_TRACE: uint32 := 5
  const TYPE_FILE_STREAM: uint32 := 7
  const TYPE_GOVERNED: uint32 := 8
  const TYPE_GOVERNED_FILE_STREAM: uint32 := 9
  const TYPE_TAGGED: uint32 := 10

  const MAX_FILENAME_LEN: nat := 255
  const MAX_MESSAGE_ID_LEN: nat := 128
  const MAX_TAGGED_HEADER_LEN: nat := 1024
  const MAX_TAGGED_OVERHEAD: nat := 2 + 31 + 2 * MAX_MESSAGE_ID_LEN + 4

  datatype Frame = Frame(ftype: uint32, payload: Bytes, filename: Bytes, messageID: Bytes, replyTo: Bytes)

  datatype Header = Header(messageID: Bytes, replyTo: Bytes)

  datatype Failure =
    | NameTooLong | NestedTag | InvalidID | TaggedTooLarge
    | ShortRead | FrameTooLarge | BadName | BadHeader

  // ---- message IDs -------------------------------------------------------

  predicate IdByte(c: byte) {
    || 'a' as int <= c <= 'z' as int || 'A' as int <= c <= 'Z' as int || '0' as int <= c <= '9' as int
    || c == '-' as int || c == '_' as int || c == '.' as int || c == ':' as int
  }

  predicate ValidID(id: Bytes) {
    1 <= |id| <= MAX_MESSAGE_ID_LEN && forall i :: 0 <= i < |id| ==> IdByte(id[i])
  }

  /** ValidMessageID, the scanning loop. */
  method ValidMessageID(id: Bytes) returns (valid: bool)
    ensures valid <==> ValidID(id)
  {
    if |id| == 0 || |id| > MAX_MESSAGE_ID_LEN { return false; }
    for i := 0 to |id|
      invariant forall j :: 0 <= j < i ==> IdByte(id[j])
    {
      if !IdByte(id[i]) { return false; }
    }
    return true;
  }

  predicate HeaderOk(h: Header) {
    (h.messageID != [] ==> ValidID(h.messageID)) && (h.replyTo != [] ==> ValidID(h.replyTo))
  }

  // ---- the header --------------------------------------------------------

  const QUOTE: byte := 34

  function Field(key: string, value: Bytes): Bytes {
    [QUOTE] + Ascii(key) + [QUOTE, 58, QUOTE] + value + [QUOTE]
  }

  /** json.Marshal of the header: an empty ID is left out. */
  function PrintHeader(h: Header): Bytes {
    var m := if h.messageID == [] then [] else Field("message_id", h.messageID);
    var r := if h.replyTo == [] then [] else Field("reply_to", h.replyTo);
    [123] + m + (if m != [] && r != [] then [44] else []) + r + [125]
  }

  /** json.Unmarshal into the two keys: None is an error. */
  type Unmarshal = Bytes -> Option<Header>

  /** All that is asked of the parser: it reads back what the printer printed. */
  ghost predicate ReadsBack(json: Unmarshal) {
    forall h :: HeaderOk(h) ==> json(PrintHeader(h)) == Some(h)
  }

  // ---- file names --------------------------------------------------------

  predicate Tail(b: Bytes, i: int) { 0 <= i < |b| && 0x80 <= b[i] <= 0xBF }

  /** The length of the well-formed UTF-8 sequence b starts with, 0 if none
      (section 4 of RFC 3629). */
  function Utf8Head(b: Bytes): (n: nat)
    requires b != []
    ensures n <= |b|
  {
    var c := b[0];
    if c <= 0x7F then 1
    else if 0xC2 <= c <= 0xDF && Tail(b, 1) then 2
    else if 0xE0 <= c <= 0xEF && Tail(b, 1) && Tail(b, 2)
            && (c == 0xE0 ==> b[1] >= 0xA0) && (c == 0xED ==> b[1] <= 0x9F) then 3
    else if 0xF0 <= c <= 0xF4 && Tail(b, 1) && Tail(b, 2) && Tail(b, 3)
            && (c == 0xF0 ==> b[1] >= 0x90) && (c == 0xF4 ==> b[1] <= 0x8F) then 4
    else 0
  }

  predicate Utf8Valid(b: Bytes) {
    b == [] || (Utf8Head(b) > 0 && Utf8Valid(b[Utf8Head(b)..]))
  }

  const SLASH: byte := 47
  const BACKSLASH: byte := 92
  const DOT: byte := 46

  /** A file name the parser lets through; the empty name is one. */
  predicate NameOk(name: Bytes) {
    && |name| <= MAX_FILENAME_LEN && Utf8Valid(name)
    && SLASH !in name && BACKSLASH !in name && name != [DOT] && name != [DOT, DOT]
  }

  // ---- writing -----------------------------------------------------------

  predicate Tagged(f: Frame) { f.messageID != [] || f.replyTo != [] }

  function HeaderOf(f: Frame): Header { Header(f.messageID, f.replyTo) }

  function WirePayload(f: Frame): Result<Bytes, Failure> {
    if f.ftype != TYPE_FILE then Ok(f.payload)
    else if |f.filename| > MAX_FILENAME_LEN then Err(NameTooLong)
    else Ok(Big(2, |f.filename|) + f.filename + f.payload)
  }

  /** header length, header, inner type, inner payload */
  function Wrapped(header: Bytes, ftype: uint32, inner: Bytes): Bytes {
    Big(2, |header|) + header + Big(4, ftype) + inner
  }

  function TaggedWirePayload(max: nat, f: Frame): Result<Bytes, Failure> {
    if f.ftype == TYPE_TAGGED then Err(NestedTag)
    else if !HeaderOk(HeaderOf(f)) then Err(InvalidID)
    else
      match WirePayload(f)
      case Err(e) => Err(e)
      case Ok(inner) =>
        if 2 + |PrintHeader(HeaderOf(f))| + 4 + |inner| > max then Err(TaggedTooLarge)
        else Ok(Wrapped(PrintHeader(HeaderOf(f)), f.ftype, inner))
  }

  /** A type and a payload behind the eight-byte header; the length field is 32 bits wide. */
  function Enframe(ftype: uint32, payload: Bytes): Bytes {
    Big(4, ftype) + Big(4, |payload| % 0x1_0000_0000) + payload
  }

  /** The bytes WriteFrame writes. */
  function WireForm(max: nat, f: Frame): Result<Bytes, Failure> {
    match if Tagged(f) then TaggedWirePayload(max, f) else WirePayload(f)
    case Err(e) => Err(e)
    case Ok(payload) => Ok(Enframe(if Tagged(f) then TYPE_TAGGED else f.ftype, payload))
  }

  // ---- reading -----------------------------------------------------------

  function Plain(ftype: uint32, payload: Bytes, filename: Bytes): Frame {
    Frame(ftype, payload, filename, [], [])
  }

  function ParsePayload(ftype: uint32, payload: Bytes): Result<Frame, Failure> {
    if ftype != TYPE_FILE || |payload| < 2 || Unbig(payload[..2]) + 2 > |payload| then
      Ok(Plain(ftype, payload, []))
    else
      var n := Unbig(payload[..2]);
      var name := payload[2..2 + n];
      if NameOk(name) then Ok(Plain(ftype, payload[2 + n..], name)) else Err(BadName)
  }

  datatype Inner = Inner(header: Header, ftype: uint32, payload: Bytes)

  function DecodeTagged(json: Unmarshal, p: Bytes): Result<Inner, Failure> {
    if |p| < 2 then Err(ShortRead)
    else
      var n := Unbig(p[..2]);
      if n == 0 || n > MAX_TAGGED_HEADER_LEN || |p| < 2 + n + 4 then Err(BadHeader)
      else
        match json(p[2..2 + n])
        case None => Err(BadHeader)
        case Some(h) =>
          BigUnbig(p[2 + n..2 + n + 4]);
          Widths();
          var ftype := Unbig(p[2 + n..2 + n + 4]);
          if !HeaderOk(h) then Err(InvalidID)
          else if ftype == TYPE_TAGGED then Err(NestedTag)
          else Ok(Inner(h, ftype, p[2 + n + 4..]))
  }

  /** The frame a type and a payload stand for, unwrapping a tagged one. */
  function Unwrap(json: Unmarshal, ftype: uint32, payload: Bytes): Result<Frame, Failure> {
    if ftype != TYPE_TAGGED then ParsePayload(ftype, payload)
    else
      match DecodeTagged(json, payload)
      case Err(e) => Err(e)
      case Ok(inner) =>
        match ParsePayload(inner.ftype, inner.payload)
        case Err(e) => Err(e)
        case Ok(f) => Ok(f.(messageID := inner.header.messageID, replyTo := inner.header.replyTo))
  }

  datatype Raw = Raw(ftype: uint32, payload: Bytes, rest: Bytes)

  /** Splits one frame off a stream. */
  function Deframe(max: nat, s: Bytes): (r: Result<Raw, Failure>)
    ensures r.Ok? ==> |r.value.rest| + |r.value.payload| + 8 == |s| && |r.value.payload| <= max
  {
    if |s| < 8 then Err(ShortRead)
    else
      BigUnbig(s[..4]);
      Widths();
      var n := Unbig(s[4..8]);
      if n > max then Err(FrameTooLarge)
      else if |s| < 8 + n then Err(ShortRead)
      else Ok(Raw(Unbig(s[..4]), s[8..8 + n], s[8 + n..]))
  }

  datatype Taken = Taken(frame: Frame, rest: Bytes)

  /** The frame ReadFrame reads and the bytes it leaves. */
  function Parse(json: Unmarshal, max: nat, s: Bytes): (r: Result<Taken, Failure>)
    ensures r.Ok? ==> |r.value.rest| < |s|
  {
    match Deframe(max, s)
    case Err(e) => Err(e)
    case Ok(raw) =>
      match Unwrap(json, raw.ftype, raw.payload)
      case Err(e) => Err(e)
      case Ok(f) => Ok(Taken(f, raw.rest))
  }

  /** Reads until the stream ends. */
  function ParseAll(json: Unmarshal, max: nat, s: Bytes): Result<seq<Frame>, Failure>
    decreases |s|
  {
    if s == [] then Ok([])
    else
      match Parse(json, max, s)
      case Err(e) => Err(e)
      case Ok(t) =>
        match ParseAll(json, max, t.rest)
        case Err(e) => Err(e)
        case Ok(fs) => Ok([t.frame] + fs)
  }

  /** The concatenated output of writing each frame in turn. */
  function WireAll(max: nat, fs: seq<Frame>): Result<Bytes, Failure> {
    if fs == [] then Ok([])
    else
      match WireForm(max, fs[0])
      case Err(e) => Err(e)
      case Ok(b) =>
        match WireAll(max, fs[1..])
        case Err(e) => Err(e)
        case Ok(bs) => Ok(b + bs)
  }
}
