/** Where each field is on the wire, byte by byte. */
module Layout {
  import opened Prelude
  import opened Wire
  import opened Frames
  import opened StreamCodec
  import opened TraceCodec

  /** The JSON text of the two IDs of a tagged frame. */
  ghost function HeaderText(f: Frame): Bytes {
    if f.replyTo == [] then Ascii("{\"message_id\":\"") + f.messageID + Ascii("\"}")
    else if f.messageID == [] then Ascii("{\"reply_to\":\"") + f.replyTo + Ascii("\"}")
    else Ascii("{\"message_id\":\"") + f.messageID + (Ascii("\",\"reply_to\":\"") + f.replyTo + Ascii("\"}"))
  }

  lemma FirstKey()
    ensures Ascii("{\"message_id\":\"") == [123] + ([QUOTE] + Ascii("message_id") + [QUOTE, 58, QUOTE])
  {
  }

  lemma OnlyReply()
    ensures Ascii("{\"reply_to\":\"") == [123] + ([QUOTE] + Ascii("reply_to") + [QUOTE, 58, QUOTE])
  {
  }

  lemma NextKey()
    ensures Ascii("\",\"reply_to\":\"") == [QUOTE, 44] + ([QUOTE] + Ascii("reply_to") + [QUOTE, 58, QUOTE])
  {
  }

  lemma Closing()
    ensures Ascii("\"}") == [QUOTE, 125]
  {
  }

  /** One field between braces. */
  lemma OneField(k: Bytes, v: Bytes)
    ensures [123] + (k + v + [QUOTE]) + [125] == ([123] + k) + v + [QUOTE, 125]
  {
  }

  lemma TwoFields(k: Bytes, v: Bytes, l: Bytes, u: Bytes)
    ensures [123] + (k + v + [QUOTE]) + [44] + (l + u + [QUOTE]) + [125]
         == ([123] + k) + v + (([QUOTE, 44] + l) + u + [QUOTE, 125])
  {
  }

  lemma HeaderIsText(f: Frame)
    requires Tagged(f)
    ensures PrintHeader(HeaderOf(f)) == HeaderText(f)
  {
    var k, l := [QUOTE] + Ascii("message_id") + [QUOTE, 58, QUOTE], [QUOTE] + Ascii("reply_to") + [QUOTE, 58, QUOTE];
    FirstKey();
    Closing();
    if f.replyTo == [] {
      OneField(k, f.messageID);
      assert PrintHeader(HeaderOf(f)) == [123] + (k + f.messageID + [QUOTE]) + [125];
    } else if f.messageID == [] {
      OnlyReply();
      OneField(l, f.replyTo);
      assert PrintHeader(HeaderOf(f)) == [123] + (l + f.replyTo + [QUOTE]) + [125];
    } else {
      NextKey();
      TwoFields(k, f.messageID, l, f.replyTo);
    }
  }

  /** The type and the length of what follows, four bytes each, most significant
      first; then the payload, behind the length and the text of its name in a FILE
      frame; and all of that behind the IDs and its own type in a tagged one, whose
      outer type is 10. */
  lemma FrameLayout(max: nat, f: Frame)
    requires WireForm(max, f).Ok?
    ensures var b := WireForm(max, f).value;
            var name := if f.ftype == 4 then Big(2, |f.filename|) + f.filename else [];
            var h := HeaderText(f);
            && |b| >= 8 && b[4..8] == Big(4, (|b| - 8) % 0x1_0000_0000)
            && (if f.messageID == [] && f.replyTo == []
                then b[..4] == Big(4, f.ftype) && b[8..] == name + f.payload
                else b[..4] == [0, 0, 0, 10] && b[8..] == Big(2, |h|) + h + Big(4, f.ftype) + (name + f.payload))
  {
    if Tagged(f) { HeaderIsText(f); }
    TenIs();
  }

  lemma TenIs()
    ensures Big(4, 10) == [0, 0, 0, 10]
  {
    assert Big(1, 0) == [0] && Big(2, 0) == [0, 0] && Big(3, 0) == [0, 0, 0];
  }

  /** A control frame: its kind, the transfer id, then the body of its kind. The
      status byte of COMPLETE is 0 for a file that was verified. */
  lemma ControlLayout(id: Bytes, c: Control)
    requires Proper(id, c)
    ensures var p, b := StreamCodec.Encode(id, c).payload, Body(c);
            && StreamCodec.Encode(id, c).ftype == 7 && |p| >= 17 && p[1..17] == id && p[17..] == b
            && (c.Init? ==> p[0] == 1 && b == Big(8, c.size) + c.hash + Big(4, c.chunkSize) + Big(2, |b| - 46) + Name255(c))
            && (c.Chunk? ==> p[0] == 2 && b == Big(8, c.off) + c.data)
            && (c.Ack? ==> p[0] == 3 && b == Big(8, c.off))
            && (c.Done? ==> p[0] == 4 && b == [])
            && (c.InitAck? ==> p[0] == 5 && b == Big(8, c.off))
            && (c.Complete? ==> p[0] == 6 && b[0] == (if c.ok then 0 else 1) && b[1..] == c.msg)
            && (c.Abort? ==> p[0] == 7 && b == c.reason)
  {
    var p := StreamCodec.Encode(id, c).payload;
    assert p == ([Kind(c)] + id) + Body(c) && p[1..17] == id && p[17..] == Body(c);
  }

  /** The name an INIT carries: at most its first 255 bytes. */
  ghost function Name255(c: Control): Bytes
    requires c.Init?
  {
    if |c.name| > 255 then c.name[..255] else c.name
  }

  /** Which control frames are malformed: those shorter than a kind and an id, of
      a kind not in use, an INIT that is not exactly as long as its name says, and a
      CHUNK, ACK or INIT-ACK without a whole offset. */
  lemma MalformedExactly(f: Frame)
    ensures StreamCodec.Decode(f).None?
        <==> || f.ftype != 7 || |f.payload| < 17 || f.payload[0] == 0 || f.payload[0] > 7
             || (f.payload[0] == 1 && (|f.payload| < 63 || |f.payload| != 63 + Unbig(f.payload[61..63])))
             || ((f.payload[0] == 2 || f.payload[0] == 3 || f.payload[0] == 5) && |f.payload| < 25)
  {
    if |f.payload| >= 63 { assert f.payload[17..][44..46] == f.payload[61..63]; }
  }

  /** A trace frame: the type of the message, the time it was sent, the message. */
  lemma TraceLayout(t: Trace)
    requires -TWO63 <= t.sentAtNs < TWO63
    ensures var f := EncodeTrace(t);
            && f.ftype == 5 && |f.payload| >= 12 && f.payload[..4] == Big(4, t.inner) && f.payload[12..] == t.payload
            && f.payload[4..12] == Big(8, if t.sentAtNs < 0 then t.sentAtNs + 0x1_0000_0000_0000_0000 else t.sentAtNs)
  {
  }
}
