/** What the reader lets through, on the bytes: file names and message IDs. */
module FileNames {
  import opened Prelude
  import opened Wire
  import opened Frames
  import opened FrameLaws
  import opened Utf8

  /** Unicode text of at most 255 bytes that names nothing but a file in the
      directory it is joined to: no slash, no backslash, not "." and not "..". */
  ghost predicate SafeName(name: Bytes) {
    && |name| <= 255 && IsText(name)
    && (forall i :: 0 <= i < |name| ==> name[i] != 47 && name[i] != 92)
    && name != [46] && name != [46, 46]
  }

  /** Empty, or 1 to 128 ASCII letters, digits, '-', '_', '.' and ':'. */
  ghost predicate SafeID(id: Bytes) {
    && |id| <= 128
    && forall i :: 0 <= i < |id| ==>
         || 48 <= id[i] <= 57 || 65 <= id[i] <= 90 || 97 <= id[i] <= 122
         || id[i] == 45 || id[i] == 95 || id[i] == 46 || id[i] == 58
  }

  lemma NameOkIsSafe(name: Bytes)
    ensures NameOk(name) <==> SafeName(name)
  {
    ValidIffText(name);
  }

  lemma HeaderOkIsSafe(h: Header)
    ensures HeaderOk(h) <==> SafeID(h.messageID) && SafeID(h.replyTo)
  {
  }

  /** Whatever bytes come in: a frame that is read is not a TAGGED one, its IDs
      are safe, a FILE frame has a safe name and no other frame has any. */
  lemma ReadIsClean(json: Unmarshal, max: nat, s: Bytes)
    requires Parse(json, max, s).Ok?
    ensures var f := Parse(json, max, s).value.frame;
            && f.ftype != 10 && SafeID(f.messageID) && SafeID(f.replyTo)
            && (if f.ftype == 4 then SafeName(f.filename) else f.filename == [])
  {
    ReadIsDeliverable(json, max, s);
    var f := Parse(json, max, s).value.frame;
    NameOkIsSafe(f.filename);
    HeaderOkIsSafe(HeaderOf(f));
  }

  /** The number in the first two bytes, most significant first. */
  function NameLen(p: Bytes): nat
    requires |p| >= 2
  {
    p[0] as int * 256 + p[1] as int
  }

  lemma TwoBytes(p: Bytes)
    requires |p| >= 2
    ensures Unbig(p[..2]) == NameLen(p)
  {
    assert p[..2][..1] == [p[0]] && p[..2][..1][..0] == [];
    assert Unbig([p[0]]) == p[0];
  }

  /** What becomes of any FILE payload: one too short for the name its first two
      bytes announce is taken whole, without a name; any other is split behind
      the name exactly if the name is safe, and refused otherwise. */
  lemma FilePayloadRead(p: Bytes)
    ensures var r := ParsePayload(4, p);
            if |p| < 2 || 2 + NameLen(p) > |p| then r == Ok(Plain(4, p, []))
            else
              var n := NameLen(p);
              r == if SafeName(p[2..2 + n]) then Ok(Plain(4, p[2 + n..], p[2..2 + n])) else Err(BadName)
  {
    if |p| >= 2 {
      TwoBytes(p);
      var n := NameLen(p);
      if 2 + n <= |p| { NameOkIsSafe(p[2..2 + n]); }
    }
  }

  /** What becomes of any wrapper: it is opened exactly if its header is 1 to 1024
      bytes that read as safe IDs and the frame inside is not itself a wrapper and
      can be read; and it is that frame with those IDs. */
  lemma WrapperRead(json: Unmarshal, header: Bytes, ftype: uint32, inner: Bytes)
    requires |header| < 0x1_0000
    ensures var r, h, f := Unwrap(json, 10, Wrapped(header, ftype, inner)), json(header), ParsePayload(ftype, inner);
            && (r.Ok? <==> 1 <= |header| <= 1024 && h.Some? && SafeID(h.value.messageID) && SafeID(h.value.replyTo)
                           && ftype != 10 && f.Ok?)
            && (r.Ok? ==> r.value == f.value.(messageID := h.value.messageID, replyTo := h.value.replyTo))
  {
    WrappedParts(header, ftype, inner);
    if json(header).Some? { HeaderOkIsSafe(json(header).value); }
  }
}
