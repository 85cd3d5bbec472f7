/**
 * A scanner of the tagged frame's header in its printed form: the one or two
 * keys in their order, values without quotes. It meets the law asked of
 * json.Unmarshal, and accepts nothing else.
 */
module HeaderScan {
  import opened Prelude
  import opened Wire
  import opened Frames
  import opened FrameLaws

  datatype Scanned = Scanned(value: Bytes, rest: Bytes)

  const OPEN: Bytes := [123]
  const COMMA: Bytes := [44]
  const CLOSE: Bytes := [125]

  function Strip(b: Bytes, prefix: Bytes): Option<Bytes> {
    if |prefix| <= |b| && b[..|prefix|] == prefix then Some(b[|prefix|..]) else None
  }

  /** Up to the next quote, and what comes after it. */
  function ToQuote(b: Bytes): Option<Scanned> {
    if b == [] then None
    else if b[0] == QUOTE then Some(Scanned([], b[1..]))
    else
      match ToQuote(b[1..])
      case None => None
      case Some(s) => Some(Scanned([b[0]] + s.value, s.rest))
  }

  function Lead(key: string): Bytes { [QUOTE] + Ascii(key) + [QUOTE, 58, QUOTE] }

  /** "key":"value" with a value that is not empty. */
  function ScanField(key: string, b: Bytes): Option<Scanned> {
    match Strip(b, Lead(key))
    case None => None
    case Some(r) =>
      match ToQuote(r)
      case None => None
      case Some(s) => if s.value == [] then None else Some(s)
  }

  /** The last field, closed by the brace. */
  function ScanLast(key: string, b: Bytes): Option<Bytes> {
    match ScanField(key, b)
    case None => None
    case Some(s) => if s.rest == CLOSE then Some(s.value) else None
  }

  function ScanAfterFirst(id: Bytes, b: Bytes): Option<Header> {
    if b == CLOSE then Some(Header(id, []))
    else
      match Strip(b, COMMA)
      case None => None
      case Some(r) =>
        match ScanLast("reply_to", r)
        case None => None
        case Some(v) => Some(Header(id, v))
  }

  function ScanInside(b: Bytes): Option<Header> {
    match ScanField("message_id", b)
    case Some(s) => ScanAfterFirst(s.value, s.rest)
    case None =>
      if b == CLOSE then Some(Header([], []))
      else
        match ScanLast("reply_to", b)
        case None => None
        case Some(v) => Some(Header([], v))
  }

  function ScanHeader(b: Bytes): Option<Header> {
    match Strip(b, OPEN)
    case None => None
    case Some(r) => ScanInside(r)
  }

  // ---- pieces ------------------------------------------------------------

  lemma StripIs(b: Bytes, prefix: Bytes)
    ensures Strip(prefix + b, prefix) == Some(b)
    ensures Strip(b, prefix).Some? ==> b == prefix + Strip(b, prefix).value
  {
    assert (prefix + b)[..|prefix|] == prefix && (prefix + b)[|prefix|..] == b;
  }

  lemma {:induction false} ToQuoteFinds(v: Bytes, rest: Bytes)
    requires QUOTE !in v
    ensures ToQuote(v + [QUOTE] + rest) == Some(Scanned(v, rest))
  {
    var b := v + [QUOTE] + rest;
    if v == [] {
      assert b[1..] == rest;
    } else {
      ToQuoteFinds(v[1..], rest);
      assert b[1..] == v[1..] + [QUOTE] + rest && v == [v[0]] + v[1..];
    }
  }

  lemma {:induction false} ToQuoteIs(b: Bytes)
    ensures ToQuote(b).Some? ==> var s := ToQuote(b).value; b == s.value + [QUOTE] + s.rest && QUOTE !in s.value
  {
    if b != [] {
      assert b == [b[0]] + b[1..];
      if b[0] == QUOTE { assert b == [] + [QUOTE] + b[1..]; }
      else {
        ToQuoteIs(b[1..]);
        if ToQuote(b[1..]).Some? {
          var s := ToQuote(b[1..]).value;
          assert b == ([b[0]] + s.value) + [QUOTE] + s.rest;
        }
      }
    }
  }

  lemma FieldScans(key: string, v: Bytes, rest: Bytes)
    requires v != [] && QUOTE !in v
    ensures ScanField(key, Field(key, v) + rest) == Some(Scanned(v, rest))
  {
    assert Field(key, v) + rest == Lead(key) + (v + [QUOTE] + rest);
    StripIs(v + [QUOTE] + rest, Lead(key));
    ToQuoteFinds(v, rest);
  }

  lemma ScannedField(key: string, b: Bytes)
    ensures ScanField(key, b).Some? ==>
      var s := ScanField(key, b).value; b == Field(key, s.value) + s.rest && s.value != [] && QUOTE !in s.value
  {
    if ScanField(key, b).Some? {
      var s, r := ScanField(key, b).value, Strip(b, Lead(key)).value;
      StripIs(b, Lead(key));
      ToQuoteIs(r);
      assert b == Lead(key) + (s.value + [QUOTE] + s.rest);
      assert b == Field(key, s.value) + s.rest;
    }
  }

  /** A text is not a field of a key that begins with another letter. */
  lemma OtherKey(key: string, b: Bytes)
    requires |key| > 0 && (|b| < 2 || b[1] != key[0] as int) && key[0] as int < 256
    ensures ScanField(key, b).None?
  {
    assert Lead(key)[1] == key[0] as int;
    assert |b| >= |Lead(key)| ==> b[..|Lead(key)|][1] == b[1];
  }

  // ---- the law -----------------------------------------------------------

  lemma ScansFirst(h: Header)
    requires HeaderOk(h) && h.messageID != []
    ensures ScanInside(Id1(h) + Rest(h)) == Some(h)
  {
    NoQuote(h.messageID);
    FieldScans("message_id", h.messageID, Rest(h));
    if h.replyTo == [] {
      assert Rest(h) == CLOSE;
    } else {
      NoQuote(h.replyTo);
      assert Rest(h) == COMMA + (Id2(h) + CLOSE);
      StripIs(Id2(h) + CLOSE, COMMA);
      FieldScans("reply_to", h.replyTo, CLOSE);
    }
  }

  lemma ScansSecond(h: Header)
    requires HeaderOk(h) && h.messageID == []
    ensures ScanInside(Id1(h) + Rest(h)) == Some(h)
  {
    Marks(h);
    assert Id1(h) + Rest(h) == Id2(h) + CLOSE;
    OtherKey("message_id", Id1(h) + Rest(h));
    if h.replyTo != [] {
      NoQuote(h.replyTo);
      FieldScans("reply_to", h.replyTo, CLOSE);
    }
  }

  /** Every printed header is read back. */
  lemma ScanReadsBack()
    ensures ReadsBack(ScanHeader)
  {
    forall h | HeaderOk(h) ensures ScanHeader(PrintHeader(h)) == Some(h) {
      PrintSplit(h);
      StripIs(Id1(h) + Rest(h), OPEN);
      if h.messageID != [] { ScansFirst(h); } else { ScansSecond(h); }
    }
  }

  lemma ScannedLast(key: string, b: Bytes)
    ensures ScanLast(key, b).Some? ==> b == Field(key, ScanLast(key, b).value) + CLOSE && ScanLast(key, b).value != []
  {
    ScannedField(key, b);
  }

  lemma ScannedInside(b: Bytes)
    ensures ScanInside(b).Some? ==> b == Id1(ScanInside(b).value) + Rest(ScanInside(b).value)
  {
    ScannedField("message_id", b);
    ScannedLast("reply_to", b);
    if ScanField("message_id", b).Some? {
      var s := ScanField("message_id", b).value;
      StripIs(s.rest, COMMA);
      if s.rest != CLOSE && Strip(s.rest, COMMA).Some? {
        ScannedLast("reply_to", Strip(s.rest, COMMA).value);
      }
    }
  }

  /** And nothing else is accepted: the scanner reads exactly what the printer prints. */
  lemma ScanIff(b: Bytes, h: Header)
    requires HeaderOk(h)
    ensures ScanHeader(b) == Some(h) <==> b == PrintHeader(h)
  {
    ScanReadsBack();
    if ScanHeader(b) == Some(h) {
      StripIs(b, OPEN);
      ScannedInside(Strip(b, OPEN).value);
      PrintSplit(h);
    }
  }
}
