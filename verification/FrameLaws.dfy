/** What the frame codec promises: frames written are the frames read. */
module FrameLaws {
  import opened Prelude
  import opened Wire
  import opened Frames

  // ---- the header --------------------------------------------------------

  lemma HeaderLength(h: Header)
    requires HeaderOk(h)
    ensures 2 <= |PrintHeader(h)| <= 31 + 2 * MAX_MESSAGE_ID_LEN
  {
  }

  lemma NoQuote(id: Bytes)
    requires ValidID(id)
    ensures QUOTE !in id
  {
  }

  /** Two fields that begin two equal texts have the same value. */
  lemma FieldInjective(key: string, v: Bytes, x: Bytes, w: Bytes, y: Bytes)
    requires Field(key, v) + x == Field(key, w) + y && QUOTE !in v && QUOTE !in w
    ensures v == w && x == y
  {
    var k := [QUOTE] + Ascii(key) + [QUOTE, 58, QUOTE];
    assert Field(key, v) + x == k + (v + [QUOTE] + x);
    assert Field(key, w) + y == k + (w + [QUOTE] + y);
    SplitAt(k, v + [QUOTE] + x, k, w + [QUOTE] + y);
    UntilStop(v, x, w, y, QUOTE);
  }

  ghost function Id1(h: Header): Bytes { if h.messageID == [] then [] else Field("message_id", h.messageID) }
  ghost function Id2(h: Header): Bytes { if h.replyTo == [] then [] else Field("reply_to", h.replyTo) }

  /** The printed header after its opening brace and first field. */
  ghost function Rest(h: Header): Bytes {
    (if h.messageID != [] && h.replyTo != [] then [44] else []) + Id2(h) + [125]
  }

  lemma PrintSplit(h: Header)
    ensures PrintHeader(h) == [123] + (Id1(h) + Rest(h))
  {
  }

  /** What follows the opening brace says which IDs are present. */
  lemma Marks(h: Header)
    requires HeaderOk(h)
    ensures h.messageID != [] ==> (Id1(h) + Rest(h))[1] == 'm' as int
    ensures h.messageID == [] && h.replyTo != [] ==> (Id1(h) + Rest(h))[1] == 'r' as int
    ensures h.messageID == [] && h.replyTo == [] ==> Id1(h) + Rest(h) == [125]
  {
  }

  lemma SecondID(g: Header, h: Header)
    requires HeaderOk(g) && HeaderOk(h) && Rest(g) == Rest(h) && (g.messageID == [] <==> h.messageID == [])
    ensures g.replyTo == h.replyTo
  {
    assert g.replyTo == [] <==> |Rest(g)| == 1;
    assert h.replyTo == [] <==> |Rest(h)| == 1;
    if g.replyTo != [] {
      NoQuote(g.replyTo);
      NoQuote(h.replyTo);
      var comma := if g.messageID != [] then [44] else [];
      assert Rest(g) == comma + (Id2(g) + [125]) && Rest(h) == comma + (Id2(h) + [125]);
      SplitAt(comma, Id2(g) + [125], comma, Id2(h) + [125]);
      FieldInjective("reply_to", g.replyTo, [125], h.replyTo, [125]);
    }
  }

  /** No two valid headers print alike. */
  lemma PrintHeaderInjective(g: Header, h: Header)
    requires HeaderOk(g) && HeaderOk(h) && PrintHeader(g) == PrintHeader(h)
    ensures g == h
  {
    PrintSplit(g);
    PrintSplit(h);
    SplitAt([123], Id1(g) + Rest(g), [123], Id1(h) + Rest(h));
    Marks(g);
    Marks(h);
    if g.messageID != [] {
      NoQuote(g.messageID);
      NoQuote(h.messageID);
      FieldInjective("message_id", g.messageID, Rest(g), h.messageID, Rest(h));
    } else {
      assert Id1(g) + Rest(g) == Rest(g) && Id1(h) + Rest(h) == Rest(h);
    }
    SecondID(g, h);
  }

  // ---- one layer at a time -----------------------------------------------

  /** Fixed-width fields at the front of a text are read back from it. */
  lemma FrontField(w: nat, v: nat, x: Bytes)
    requires v < Range(w)
    ensures (Big(w, v) + x)[..w] == Big(w, v) && Unbig(Big(w, v)) == v && (Big(w, v) + x)[w..] == x
  {
  }

  /** What the reader makes of a frame: only a FILE frame carries a file name. */
  function Delivered(f: Frame): Frame {
    if f.ftype == TYPE_FILE then f else f.(filename := [])
  }

  function WithoutTags(f: Frame): Frame { f.(messageID := [], replyTo := []) }

  predicate Deliverable(f: Frame) {
    f.ftype != TYPE_TAGGED && HeaderOk(HeaderOf(f)) && (f.ftype == TYPE_FILE ==> NameOk(f.filename))
  }

  lemma PayloadRoundTrip(f: Frame)
    requires Deliverable(f)
    ensures WirePayload(f).Ok?
    ensures ParsePayload(f.ftype, WirePayload(f).value) == Ok(Delivered(WithoutTags(f)))
  {
    if f.ftype == TYPE_FILE {
      Widths();
      var p, n := WirePayload(f).value, |f.filename|;
      assert p == Big(2, n) + (f.filename + f.payload);
      FrontField(2, n, f.filename + f.payload);
      assert p[2..2 + n] == f.filename && p[2 + n..] == f.payload;
    }
  }

  lemma WrappedParts(header: Bytes, ftype: uint32, inner: Bytes)
    requires |header| < 0x1_0000
    ensures var p, n := Wrapped(header, ftype, inner), |header|;
      && |p| == 2 + n + 4 + |inner| && Unbig(p[..2]) == n && p[2..2 + n] == header
      && Unbig(p[2 + n..2 + n + 4]) == ftype && p[2 + n + 4..] == inner
  {
    Widths();
    var p, n := Wrapped(header, ftype, inner), |header|;
    UnbigBig(2, n);
    UnbigBig(4, ftype);
    assert p[..2] == Big(2, n) && p[2..2 + n] == header;
    assert p[2 + n..2 + n + 4] == Big(4, ftype) && p[2 + n + 4..] == inner;
  }

  lemma WrappedRoundTrip(json: Unmarshal, h: Header, ftype: uint32, inner: Bytes)
    requires ReadsBack(json) && HeaderOk(h) && ftype != TYPE_TAGGED
    ensures DecodeTagged(json, Wrapped(PrintHeader(h), ftype, inner)) == Ok(Inner(h, ftype, inner))
  {
    HeaderLength(h);
    WrapperDecodes(json, PrintHeader(h), h, ftype, inner);
  }

  lemma WrapperDecodes(json: Unmarshal, header: Bytes, h: Header, ftype: uint32, inner: Bytes)
    requires 1 <= |header| <= MAX_TAGGED_HEADER_LEN && json(header) == Some(h) && HeaderOk(h) && ftype != TYPE_TAGGED
    ensures DecodeTagged(json, Wrapped(header, ftype, inner)) == Ok(Inner(h, ftype, inner))
  {
    WrappedParts(header, ftype, inner);
  }

  lemma EnframeParts(ftype: uint32, payload: Bytes, rest: Bytes)
    requires |payload| < 0x1_0000_0000
    ensures var s, n := Enframe(ftype, payload) + rest, |payload|;
      && |s| == 8 + n + |rest| && Unbig(s[..4]) == ftype && Unbig(s[4..8]) == n
      && s[8..8 + n] == payload && s[8 + n..] == rest
  {
    Widths();
    var a, b := Big(4, ftype), Big(4, |payload|);
    UnbigBig(4, ftype);
    UnbigBig(4, |payload|);
    FourParts(a, b, payload, rest);
  }

  lemma FourParts(a: Bytes, b: Bytes, c: Bytes, d: Bytes)
    requires |a| == |b| == 4
    ensures var s := a + b + c + d; s[..4] == a && s[4..8] == b && s[8..8 + |c|] == c && s[8 + |c|..] == d
  {
  }

  lemma EnframeRoundTrip(max: nat, ftype: uint32, payload: Bytes, rest: Bytes)
    requires |payload| <= max < 0x8000_0000
    ensures Deframe(max, Enframe(ftype, payload) + rest) == Ok(Raw(ftype, payload, rest))
  {
    EnframeParts(ftype, payload, rest);
  }

  // ---- round trips -------------------------------------------------------

  /** The payload that follows the outer header. */
  function OuterPayload(max: nat, f: Frame): Result<Bytes, Failure> {
    if Tagged(f) then TaggedWirePayload(max, f) else WirePayload(f)
  }

  /** Something a sender can check: the reader accepts the frame and it fits. */
  predicate Sendable(max: nat, f: Frame) {
    Deliverable(f) && OuterPayload(max, f).Ok? && |OuterPayload(max, f).value| <= max
  }

  /** Whatever follows it on the stream, a sendable frame is read as it was
      sent, less the file name of a frame that is not a FILE. */
  lemma SentIsDelivered(json: Unmarshal, max: nat, f: Frame, rest: Bytes)
    requires ReadsBack(json) && max < 0x8000_0000 && Sendable(max, f)
    ensures WireForm(max, f).Ok?
    ensures Parse(json, max, WireForm(max, f).value + rest) == Ok(Taken(Delivered(f), rest))
  {
    var payload := OuterPayload(max, f).value;
    PayloadRoundTrip(f);
    EnframeRoundTrip(max, if Tagged(f) then TYPE_TAGGED else f.ftype, payload, rest);
    if Tagged(f) { WrappedRoundTrip(json, HeaderOf(f), f.ftype, WirePayload(f).value); }
  }

  /** A frame that is cut off is not read, wherever it is cut. */
  lemma TruncatedIsRefused(json: Unmarshal, max: nat, f: Frame, k: nat)
    requires max < 0x8000_0000 && Sendable(max, f) && k < 8 + |OuterPayload(max, f).value|
    ensures |WireForm(max, f).value| == 8 + |OuterPayload(max, f).value|
    ensures Parse(json, max, WireForm(max, f).value[..k]) == Err(ShortRead)
  {
    var ftype, payload := if Tagged(f) then TYPE_TAGGED else f.ftype, OuterPayload(max, f).value;
    EnframeParts(ftype, payload, []);
    var s := Enframe(ftype, payload);
    assert s + [] == s;
    if k >= 8 { assert s[..k][4..8] == s[4..8]; }
  }

  /** The reader never returns a TAGGED frame, an ID that is not valid, a file
      name it would not accept, or a name on a frame that is not a FILE. */
  lemma ReadIsDeliverable(json: Unmarshal, max: nat, s: Bytes)
    requires Parse(json, max, s).Ok?
    ensures var f := Parse(json, max, s).value.frame; Deliverable(f) && Delivered(f) == f
  {
  }

  /** A payload too long for the reader is never mistaken for the frame sent,
      even when its length wraps around the 32-bit field. */
  lemma OversizeIsNotDelivered(json: Unmarshal, max: nat, f: Frame, rest: Bytes)
    requires 0x1_0000 <= max && !Tagged(f) && f.ftype != TYPE_TAGGED
    requires WirePayload(f).Ok? && |WirePayload(f).value| > max
    ensures var r := Parse(json, max, WireForm(max, f).value + rest); r.Ok? ==> r.value.frame != f
  {
    var p, s := WirePayload(f).value, WireForm(max, f).value + rest;
    if Deframe(max, s).Ok? {
      DeframePrefix(max, f.ftype, p, rest);
      ShorterDiffers(f, p, |Deframe(max, s).value.payload|);
    }
  }

  /** However long the payload, what the reader takes for it is a prefix of it. */
  lemma DeframePrefix(max: nat, ftype: uint32, p: Bytes, rest: Bytes)
    requires |p| > max && Deframe(max, Enframe(ftype, p) + rest).Ok?
    ensures var raw := Deframe(max, Enframe(ftype, p) + rest).value;
      raw.ftype == ftype && |raw.payload| <= max && raw.payload == p[..|raw.payload|]
  {
    var s := Enframe(ftype, p) + rest;
    Widths();
    UnbigBig(4, ftype);
    assert s[..4] == Big(4, ftype);
    assert s[8..] == p + rest;
  }

  /** A proper prefix of a payload longer than three bytes does not parse back to the frame. */
  lemma ShorterDiffers(f: Frame, p: Bytes, k: nat)
    requires WirePayload(f) == Ok(p) && k < |p| && |p| > 3
    ensures ParsePayload(f.ftype, p[..k]) != Ok(f)
  {
    if f.ftype == TYPE_FILE && k >= 2 {
      Widths();
      UnbigBig(2, |f.filename|);
      assert p[..k][..2] == Big(2, |f.filename|);
    }
  }

  /** A frame the reader accepts, that fits, and that carries no stray file name. */
  predicate Survives(max: nat, f: Frame) {
    Sendable(max, f) && Delivered(f) == f
  }

  /** Exactly those frames survive the wire, whatever follows them; no other
      frame is ever read back as itself. */
  lemma RoundTripIff(json: Unmarshal, max: nat, f: Frame, rest: Bytes)
    requires ReadsBack(json) && 0x1_0000 <= max < 0x8000_0000
    ensures (WireForm(max, f).Ok? && Parse(json, max, WireForm(max, f).value + rest) == Ok(Taken(f, rest)))
       <==> Survives(max, f)
    ensures !Survives(max, f) && WireForm(max, f).Ok? ==>
      var r := Parse(json, max, WireForm(max, f).value + rest); r.Ok? ==> r.value.frame != f
  {
    if Sendable(max, f) {
      SentIsDelivered(json, max, f, rest);
    } else if WireForm(max, f).Ok? && Parse(json, max, WireForm(max, f).value + rest).Ok? {
      ReadIsDeliverable(json, max, WireForm(max, f).value + rest);
      if Deliverable(f) { OversizeIsNotDelivered(json, max, f, rest); }
    }
  }

  lemma StreamStep(json: Unmarshal, max: nat, f: Frame, fs: seq<Frame>, rest: Bytes)
    requires ReadsBack(json) && 0x1_0000 <= max < 0x8000_0000 && WireForm(max, f).Ok?
    ensures ParseAll(json, max, WireForm(max, f).value + rest) == Ok([f] + fs)
       <==> Survives(max, f) && ParseAll(json, max, rest) == Ok(fs)
  {
    RoundTripIff(json, max, f, rest);
    var s := WireForm(max, f).value + rest;
    assert |s| >= 8;
    if Parse(json, max, s).Ok? {
      var t := Parse(json, max, s).value;
      var more := ParseAll(json, max, t.rest);
      if more.Ok? {
        assert ([t.frame] + more.value)[0] == t.frame && ([t.frame] + more.value)[1..] == more.value;
        assert ([f] + fs)[0] == f && ([f] + fs)[1..] == fs;
      }
    }
  }

  ghost predicate AllSurvive(max: nat, fs: seq<Frame>) {
    forall i :: 0 <= i < |fs| ==> Survives(max, fs[i])
  }

  lemma AllSurviveCons(max: nat, fs: seq<Frame>)
    requires fs != []
    ensures AllSurvive(max, fs) <==> Survives(max, fs[0]) && AllSurvive(max, fs[1..])
  {
  }

  /** A whole stream of frames comes back as sent exactly when each frame does. */
  lemma {:induction false} StreamRoundTripIff(json: Unmarshal, max: nat, fs: seq<Frame>)
    requires ReadsBack(json) && 0x1_0000 <= max < 0x8000_0000
    ensures (WireAll(max, fs).Ok? && ParseAll(json, max, WireAll(max, fs).value) == Ok(fs)) <==> AllSurvive(max, fs)
  {
    if fs != [] {
      StreamRoundTripIff(json, max, fs[1..]);
      AllSurviveCons(max, fs);
      if WireForm(max, fs[0]).Ok? && WireAll(max, fs[1..]).Ok? {
        StreamStep(json, max, fs[0], fs[1..], WireAll(max, fs[1..]).value);
        assert fs == [fs[0]] + fs[1..];
      }
    }
  }

  lemma Regroup(h: Bytes, a: Bytes, b: Bytes, c: Bytes)
    ensures h + (a + b) + c == h + a + (b + c)
  {
  }

  /** How much of an untagged payload the 32-bit length field announces. */
  function Announced(f: Frame): nat
    requires WirePayload(f).Ok?
  {
    |WirePayload(f).value| % 0x1_0000_0000
  }

  /** A frame whose length wraps is that frame with its first bytes only, and the others behind it. */
  lemma EnframeCut(ftype: uint32, p: Bytes, rest: Bytes)
    ensures var k := |p| % 0x1_0000_0000; Enframe(ftype, p) + rest == Enframe(ftype, p[..k]) + (p[k..] + rest)
  {
    var k := |p| % 0x1_0000_0000;
    assert p == p[..k] + p[k..];
    Regroup(Big(4, ftype) + Big(4, k), p[..k], p[k..], rest);
  }

  /** Whatever its length, an untagged payload is announced modulo 2^32: the
      reader refuses it if that is over its cap, and else takes that many bytes
      for the whole payload and goes on reading in its middle. */
  lemma LengthWraps(json: Unmarshal, max: nat, f: Frame, rest: Bytes)
    requires !Tagged(f) && f.ftype != TYPE_TAGGED && WirePayload(f).Ok? && max < 0x8000_0000
    ensures WireForm(max, f).Ok?
    ensures var p, k := WirePayload(f).value, Announced(f);
      Parse(json, max, WireForm(max, f).value + rest) ==
        if k > max then Err(FrameTooLarge)
        else match ParsePayload(f.ftype, p[..k]) case Err(e) => Err(e) case Ok(g) => Ok(Taken(g, p[k..] + rest))
  {
    var p, k := WirePayload(f).value, Announced(f);
    EnframeCut(f.ftype, p, rest);
    if k > max { TooLargeIsRefused(max, f.ftype, p[..k], p[k..] + rest); }
    else { EnframeRoundTrip(max, f.ftype, p[..k], p[k..] + rest); }
  }

  /** A FILE payload cut at k parses unless its name is whole and not acceptable. */
  lemma CutFileParses(f: Frame, k: nat)
    requires f.ftype == TYPE_FILE && WirePayload(f).Ok? && k <= |WirePayload(f).value|
    ensures ParsePayload(TYPE_FILE, WirePayload(f).value[..k]).Ok? <==> k < 2 + |f.filename| || NameOk(f.filename)
  {
    var p, n := WirePayload(f).value, |f.filename|;
    if k >= 2 {
      Widths();
      UnbigBig(2, n);
      assert p[..2] == Big(2, n) && p[2..2 + n] == f.filename;
      assert p[..k][..2] == p[..2];
      assert k >= 2 + n ==> p[..k][2..2 + n] == p[2..2 + n];
    }
  }

  /** The frame is 4 GiB or more on the wire, wraps to a length within the cap,
      and what is left of it parses. */
  predicate Misread(max: nat, f: Frame)
    requires WirePayload(f).Ok?
  {
    && !Tagged(f) && |WirePayload(f).value| >= 0x1_0000_0000 && Announced(f) <= max
    && (f.ftype == TYPE_FILE ==> Announced(f) < 2 + |f.filename| || NameOk(f.filename))
  }

  /** A written frame that is not sendable is refused, exactly unless it is misread. */
  lemma RefusedUnlessMisread(json: Unmarshal, max: nat, f: Frame, rest: Bytes)
    requires ReadsBack(json) && 0x1_0000 <= max < 0x8000_0000 && f.ftype != TYPE_TAGGED
    requires WireForm(max, f).Ok? && !Sendable(max, f)
    ensures WirePayload(f).Ok?
    ensures Parse(json, max, WireForm(max, f).value + rest).Err? <==> !Misread(max, f)
  {
    if |WirePayload(f).value| < 0x1_0000_0000 {
      UnsendableIsRefused(json, max, f, rest);
    } else {
      LengthWraps(json, max, f, rest);
      if f.ftype == TYPE_FILE { CutFileParses(f, Announced(f)); }
    }
  }

  /** A TEXT frame of exactly 4 GiB is read as an empty one, with its payload
      still to come. */
  lemma FourGiBIsMisread(json: Unmarshal, max: nat, payload: Bytes, rest: Bytes)
    requires |payload| == 0x1_0000_0000 && 0x1_0000 <= max < 0x8000_0000
    ensures var f := Plain(TYPE_TEXT, payload, []);
      && WireForm(max, f).Ok? && Misread(max, f)
      && Parse(json, max, WireForm(max, f).value + rest) == Ok(Taken(Plain(TYPE_TEXT, [], []), payload + rest))
  {
    LengthWraps(json, max, Plain(TYPE_TEXT, payload, []), rest);
    assert payload[..0] == [] && payload[0..] == payload;
  }

  /** Below 4 GiB a frame that is not sendable is refused, never misread. */
  lemma UnsendableIsRefused(json: Unmarshal, max: nat, f: Frame, rest: Bytes)
    requires ReadsBack(json) && 0x1_0000 <= max < 0x8000_0000 && f.ftype != TYPE_TAGGED
    requires WireForm(max, f).Ok? && !Sendable(max, f) && |WirePayload(f).value| < 0x1_0000_0000
    ensures Parse(json, max, WireForm(max, f).value + rest).Err?
  {
    var ftype, payload := if Tagged(f) then TYPE_TAGGED else f.ftype, OuterPayload(max, f).value;
    if |payload| > max {
      TooLargeIsRefused(max, ftype, payload, rest);
    } else {
      EnframeRoundTrip(max, ftype, payload, rest);
      BadNameIsRefused(f);
      if Tagged(f) { WrappedRoundTrip(json, HeaderOf(f), f.ftype, WirePayload(f).value); }
    }
  }

  lemma TooLargeIsRefused(max: nat, ftype: uint32, payload: Bytes, rest: Bytes)
    requires max < |payload| < 0x1_0000_0000
    ensures Deframe(max, Enframe(ftype, payload) + rest) == Err(FrameTooLarge)
  {
    EnframeParts(ftype, payload, rest);
  }

  lemma BadNameIsRefused(f: Frame)
    requires f.ftype == TYPE_FILE && |f.filename| <= MAX_FILENAME_LEN && !NameOk(f.filename)
    ensures ParsePayload(TYPE_FILE, WirePayload(f).value) == Err(BadName)
  {
    Widths();
    var p, n := WirePayload(f).value, |f.filename|;
    UnbigBig(2, n);
    assert p[..2] == Big(2, n) && p[2..2 + n] == f.filename;
  }

  // ---- the cost of a tag -------------------------------------------------

  /** Tagging adds at most 293 bytes, and with two IDs of full length exactly that. */
  lemma TagOverhead(max: nat, f: Frame)
    requires Tagged(f) && TaggedWirePayload(max, f).Ok?
    ensures MAX_TAGGED_OVERHEAD == 293
    ensures WirePayload(f).Ok? && |TaggedWirePayload(max, f).value| <= |WirePayload(f).value| + MAX_TAGGED_OVERHEAD
    ensures |TaggedWirePayload(max, f).value| == |WirePayload(f).value| + MAX_TAGGED_OVERHEAD
       <==> |f.messageID| == MAX_MESSAGE_ID_LEN && |f.replyTo| == MAX_MESSAGE_ID_LEN
  {
  }

  /** A frame whose untagged payload leaves 293 bytes of room can always be tagged. */
  lemma Taggable(max: nat, f: Frame)
    requires Deliverable(f) && Tagged(f) && WirePayload(f).Ok?
    requires |WirePayload(f).value| + MAX_TAGGED_OVERHEAD <= max
    ensures Sendable(max, f)
  {
  }
}
