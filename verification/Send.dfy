/**
 * Send with fallback (`sendAndAwaitAck` in `client.go`) against a service of
 * any generation over one reliable connection.
 */
module Send {
  import opened Prelude
  import opened Wire
  import opened Frames
  import opened FrameLaws
  import opened FrameIO
  import opened Names
  import opened Service
  import opened Answers

  // ---- one frame and its answer, over the wire ---------------------------

  /** An older service does not unwrap. */
  function ReadBy(gen: Generation, json: Unmarshal, max: nat, s: Bytes): Result<Taken, Failure> {
    if gen == Current then Parse(json, max, s)
    else
      match Deframe(max, s)
      case Err(e) => Err(e)
      case Ok(raw) =>
        match ParsePayload(raw.ftype, raw.payload)
        case Err(e) => Err(e)
        case Ok(f) => Ok(Taken(f, raw.rest))
  }

  datatype Served = Served(peer: Peer, answer: Bytes)

  /** The service reads one frame and answers it, or hangs up. */
  function Serve(json: Unmarshal, max: nat, p: Peer, e: Env, s: Bytes): Served {
    match ReadBy(p.gen, json, max, s)
    case Err(_) => Served(p.(open := false), [])
    case Ok(t) =>
      var h := Handle(p, e, t.frame);
      Served(h.peer, if h.answer.Some? then Enframe(h.answer.value.ftype, h.answer.value.payload) else [])
  }

  datatype Reply = Reply(peer: Peer, ack: Result<Frame, Failure>)

  /** What writing the bytes s and reading one frame back comes to. */
  function Exchange(json: Unmarshal, max: nat, p: Peer, e: Env, s: Bytes): Reply {
    var served := Serve(json, max, p, e, s);
    Reply(served.peer, match Parse(json, max, served.answer) case Err(x) => Err(x) case Ok(t) => Ok(t.frame))
  }

  /** Whatever bytes it is sent, a service keeps its caches in order. */
  lemma ExchangeKeepsCache(json: Unmarshal, max: nat, p: Peer, e: Env, s: Bytes)
    requires CacheOk(p)
    ensures CacheOk(Exchange(json, max, p, e, s).peer)
  {
    match ReadBy(p.gen, json, max, s)
    case Ok(t) => HandleKeepsCache(p, e, t.frame);
    case Err(_) =>
      MoreInv(p, p.(open := false), p.byID);
      MoreInv(p, p.(open := false), p.byContent);
  }

  /** The frame a service's handler gets when f is sent. */
  function Arrives(gen: Generation, max: nat, f: Frame): Frame
    requires OuterPayload(max, f).Ok?
  {
    if gen != Current && Tagged(f) then Plain(TYPE_TAGGED, OuterPayload(max, f).value, []) else Delivered(f)
  }

  /** The service can read f: an older one takes any tagged frame as it is. */
  predicate Readable(gen: Generation, max: nat, f: Frame) {
    Sendable(max, f) || (gen != Current && Tagged(f) && f.ftype != TYPE_TAGGED && WireForm(max, f).Ok?)
  }

  lemma ReadByArrives(gen: Generation, json: Unmarshal, max: nat, f: Frame)
    requires ReadsBack(json) && 0x1_0000 <= max < 0x8000_0000 && Readable(gen, max, f)
    ensures WireForm(max, f).Ok? && OuterPayload(max, f).Ok?
    ensures ReadBy(gen, json, max, WireForm(max, f).value) == Ok(Taken(Arrives(gen, max, f), []))
  {
    var s := WireForm(max, f).value;
    assert s + [] == s;
    if gen == Current || !Tagged(f) { SentIsDelivered(json, max, f, []); }
    else { EnframeRoundTrip(max, TYPE_TAGGED, OuterPayload(max, f).value, []); }
  }

  lemma ReadByRefuses(gen: Generation, json: Unmarshal, max: nat, f: Frame)
    requires ReadsBack(json) && 0x1_0000 <= max < 0x8000_0000 && f.ftype != TYPE_TAGGED
    requires WireForm(max, f).Ok? && !Readable(gen, max, f) && |WirePayload(f).value| < 0x1_0000_0000
    ensures ReadBy(gen, json, max, WireForm(max, f).value).Err?
  {
    var s := WireForm(max, f).value;
    assert s + [] == s;
    UnsendableIsRefused(json, max, f, []);
    if gen != Current {
      if |OuterPayload(max, f).value| > max { TooLargeIsRefused(max, f.ftype, OuterPayload(max, f).value, []); }
      else { EnframeRoundTrip(max, f.ftype, OuterPayload(max, f).value, []); }
    }
  }

  // ---- answers on their way back -----------------------------------------

  /** Texts and replies fit in memory: each is under 2 GiB. */
  ghost predicate Bounded(e: Env) {
    && (e.saveErr.Some? ==> |e.saveErr.value| < 0x8000_0000) && |e.timing| < 0x8000_0000
    && match e.stream
       case NoReply => true
       case Control(b) => |b| < 0x8000_0000
       case NoDir(b) => |b| < 0x8000_0000
       case NoMkdir(b) => |b| < 0x8000_0000
  }

  lemma TextsFit(gen: Generation, e: Env, f: Frame)
    requires Bounded(e) && |f.payload| < 0x1_0000_0000
    ensures |AckText(gen, f)| <= 100 && |ErrText(gen, f, Unsupported(gen, e, f))| <= 0x8000_0000 + 100
    ensures e.saveErr.Some? ==> |ErrText(gen, f, e.saveErr.value)| <= 0x8000_0000 + 100
  {
    NameShape(f.ftype);
    UnknownShape(f.ftype);
    Dec32(f.ftype);
    Dec32(|f.payload|);
  }

  /** An answer carries no IDs and no file name, and its length does not wrap. */
  ghost predicate Answer(a: Frame) {
    |a.payload| < 0x1_0000_0000 && a == Plain(a.ftype, a.payload, []) && a.ftype != TYPE_FILE && a.ftype != TYPE_TAGGED
  }

  lemma DispatchAnswers(p: Peer, e: Env, f: Frame)
    requires Bounded(e) && |f.payload| < 0x1_0000_0000
    ensures var a := Dispatch(p, e, f).answer; a.Some? ==> Answer(a.value)
  {
    TextsFit(p.gen, e, f);
    if f.ftype != TYPE_FILE_STREAM && f.ftype != TYPE_TRACE {
      DispatchText(p, e, f);
    }
  }

  lemma AnswerFits(p: Peer, e: Env, f: Frame)
    requires Bounded(e) && CacheOk(p) && |f.payload| < 0x1_0000_0000
    ensures var a := Handle(p, e, f).answer; a.Some? ==> Answer(a.value)
  {
    if Suppressed(p, e, f) {
      ArrivedInv(p, e, f);
      KnownIsAcked(Arrived(p, e, f), f);
      TextsFit(p.gen, e, f);
      assert |Ascii(DUPLICATE)| == 12;
    } else {
      DispatchAnswers(Arrived(p, e, f), e, f);
    }
  }

  /** What the client makes of an answer: one over its frame cap is an error. */
  function Heard(max: nat, answer: Option<Frame>): Result<Frame, Failure> {
    match answer
    case None => Err(ShortRead)
    case Some(a) => if |a.payload| > max then Err(FrameTooLarge) else Ok(a)
  }

  lemma ReadAnswer(json: Unmarshal, max: nat, a: Frame)
    requires ReadsBack(json) && 0x1_0000 <= max < 0x8000_0000 && Answer(a)
    ensures Parse(json, max, Enframe(a.ftype, a.payload))
         == if |a.payload| > max then Err(FrameTooLarge) else Ok(Taken(a, []))
  {
    assert Enframe(a.ftype, a.payload) + [] == Enframe(a.ftype, a.payload);
    if |a.payload| > max { TooLargeIsRefused(max, a.ftype, a.payload, []); }
    else { EnframeRoundTrip(max, a.ftype, a.payload, []); }
  }

  lemma ArrivesFits(gen: Generation, max: nat, f: Frame)
    requires max < 0x8000_0000 && Readable(gen, max, f) && OuterPayload(max, f).Ok?
    ensures |Arrives(gen, max, f).payload| <= max
  {
  }

  /** The wire is transparent: the handler gets the frame and the client its answer. */
  lemma ExchangeHandles(json: Unmarshal, max: nat, p: Peer, e: Env, f: Frame)
    requires ReadsBack(json) && 0x1_0000 <= max < 0x8000_0000 && Readable(p.gen, max, f) && Bounded(e) && CacheOk(p)
    ensures WireForm(max, f).Ok? && OuterPayload(max, f).Ok?
    ensures var h := Handle(p, e, Arrives(p.gen, max, f));
      Exchange(json, max, p, e, WireForm(max, f).value) == Reply(h.peer, Heard(max, h.answer)) && CacheOk(h.peer)
    ensures Exhausts(json, max, p, e, WireForm(max, f).value)
  {
    ReadByArrives(p.gen, json, max, f);
    ArrivesFits(p.gen, max, f);
    var g := Arrives(p.gen, max, f);
    AnswerFits(p, e, g);
    HandleKeepsCache(p, e, g);
    var a := Handle(p, e, g).answer;
    if a.Some? { ReadAnswer(json, max, a.value); }
  }

  /** A frame the service cannot read makes it hang up. */
  lemma ExchangeRefused(json: Unmarshal, max: nat, p: Peer, e: Env, f: Frame)
    requires ReadsBack(json) && 0x1_0000 <= max < 0x8000_0000 && f.ftype != TYPE_TAGGED
    requires WireForm(max, f).Ok? && !Readable(p.gen, max, f) && |WirePayload(f).value| < 0x1_0000_0000
    ensures Exchange(json, max, p, e, WireForm(max, f).value) == Reply(p.(open := false), Err(ShortRead))
    ensures Exhausts(json, max, p, e, WireForm(max, f).value)
  {
    ReadByRefuses(p.gen, json, max, f);
  }

  /** Nothing is left to read once the answer was. */
  ghost predicate Exhausts(json: Unmarshal, max: nat, p: Peer, e: Env, s: Bytes) {
    var r := Parse(json, max, Serve(json, max, p, e, s).answer);
    r.Ok? ==> r.value.rest == []
  }

  // ---- what an answer says -----------------------------------------------

  /** SendResult, and whether the error wraps ErrRejected. */
  datatype SendResult = SendResult(ack: Frame, tagged: bool, duplicate: bool, rejected: bool)

  function Judge(ack: Frame, tagged: bool): SendResult {
    var text := ack.ftype == TYPE_TEXT;
    SendResult(ack, tagged,
      text && HasPrefix(ack.payload, Ascii("ACK ")) && HasSuffix(ack.payload, Ascii(DUPLICATE)),
      text && HasPrefix(ack.payload, Ascii("ERR ")))
  }

  lemma AckIsPlain(gen: Generation, f: Frame, tagged: bool)
    ensures !Judge(Text(AckText(gen, f)), tagged).duplicate && !Judge(Text(AckText(gen, f)), tagged).rejected
  {
    AckEnds(gen, f);
    LastLetter(AckText(gen, f));
    FirstLetter(AckText(gen, f));
  }

  lemma AckEnds(gen: Generation, f: Frame)
    ensures var a := AckText(gen, f); |a| > 6 && a[0] == 'A' as int && a[|a| - 1] == 's' as int
  {
  }

  lemma LastLetter(a: Bytes)
    requires a != [] && a[|a| - 1] == 's' as int
    ensures !HasSuffix(a, Ascii(DUPLICATE))
  {
    assert |a| >= 12 ==> a[|a| - 12..][11] == a[|a| - 1];
  }

  lemma FirstLetter(a: Bytes)
    requires a != [] && a[0] == 'A' as int
    ensures !HasPrefix(a, Ascii("ERR "))
  {
    assert |a| >= 4 ==> a[..4][0] == a[0];
  }

  lemma DuplicateIsMarked(gen: Generation, f: Frame, tagged: bool)
    ensures var r := Judge(Text(AckText(gen, f) + Ascii(DUPLICATE)), tagged); r.duplicate && !r.rejected
  {
    var a := AckText(gen, f) + Ascii(DUPLICATE);
    assert a[..4] == Ascii("ACK ");
    assert a[|a| - 12..] == Ascii(DUPLICATE);
    assert a[..4][0] != Ascii("ERR ")[0];
  }

  lemma ErrIsRejected(gen: Generation, f: Frame, reason: Bytes, tagged: bool)
    ensures var r := Judge(Text(ErrText(gen, f, reason)), tagged); r.rejected && !r.duplicate
  {
    var a := ErrText(gen, f, reason);
    assert a[..4] == Ascii("ERR ");
    assert a[..4][0] != Ascii("ACK ")[0];
  }

  /** A sender told neither ERR nor duplicate left exactly one new copy behind;
      a duplicate was stored before and a rejected frame is not stored now. */
  ghost predicate ExactlyOnce(before: seq<Frame>, after: seq<Frame>, g: Frame, r: SendResult) {
    if r.rejected then after == before && !r.duplicate
    else if r.duplicate then after == before && g in before
    else after == before + [g]
  }

  lemma AnswerTellsStored(p: Peer, e: Env, g: Frame, tagged: bool)
    requires CacheOk(p) && Storable(g)
    ensures var h := Handle(p, e, g);
      h.answer.Some? && ExactlyOnce(p.stored, h.peer.stored, g, Judge(h.answer.value, tagged))
  {
    if Suppressed(p, e, g) {
      ArrivedInv(p, e, g);
      KnownIsAcked(Arrived(p, e, g), g);
      DuplicateIsMarked(p.gen, g, tagged);
    } else {
      DispatchTellsStored(Arrived(p, e, g), e, g, tagged);
    }
  }

  lemma DispatchTellsStored(p: Peer, e: Env, g: Frame, tagged: bool)
    requires Storable(g)
    ensures var h := Dispatch(p, e, g);
      h.answer.Some? && ExactlyOnce(p.stored, h.peer.stored, g, Judge(h.answer.value, tagged))
  {
    AckIsPlain(p.gen, g, tagged);
    if e.saveErr.Some? { ErrIsRejected(p.gen, g, e.saveErr.value, tagged); }
  }

  /** An answer too long to be heard is an error text, and stored nothing. */
  lemma UnheardStoredNothing(max: nat, p: Peer, e: Env, g: Frame)
    requires CacheOk(p) && Storable(g) && |g.payload| < 0x1_0000_0000 && 0x1_0000 <= max && Bounded(e)
    ensures var h := Handle(p, e, g); Heard(max, h.answer).Err? ==> h.peer.stored == p.stored
  {
    TextsFit(p.gen, e, g);
    if Suppressed(p, e, g) {
      ArrivedInv(p, e, g);
      KnownIsAcked(Arrived(p, e, g), g);
    }
  }

  // ---- the protocol ------------------------------------------------------

  /** The form Send writes first: untagged when the tag does not fit. */
  function FirstForm(max: nat, f: Frame): Frame {
    if WireForm(max, f) == Err(TaggedTooLarge) then WithoutTags(f) else f
  }

  /** Whatever can be sent without its IDs is sent, and with them exactly if there
      is room for them. */
  lemma SendsWhatFits(max: nat, f: Frame)
    requires Deliverable(f) && Tagged(f) && Sendable(max, WithoutTags(f))
    ensures Sendable(max, FirstForm(max, f)) && WithoutTags(FirstForm(max, f)) == WithoutTags(f)
    ensures var room := max - |WirePayload(f).value| - 6;
            FirstForm(max, f) == if |PrintHeader(HeaderOf(f))| <= room then f else WithoutTags(f)
  {
  }

  ghost predicate Ready(json: Unmarshal, max: nat, p: Peer) {
    ReadsBack(json) && 0x1_0000 <= max < 0x8000_0000 && CacheOk(p) && p.open
  }

  /** An older service answers a tagged frame as one that predates tags, and
      is none the worse for it; any other first form is answered for good. */
  lemma FirstAnswer(json: Unmarshal, max: nat, p: Peer, e: Env, f: Frame)
    requires Ready(json, max, p) && Bounded(e) && f.ftype != TYPE_TAGGED && Readable(p.gen, max, f)
    ensures WireForm(max, f).Ok?
    ensures var x := Exchange(json, max, p, e, WireForm(max, f).value);
      if p.gen != Current && Tagged(f) then
        && (x.ack.Ok? ==> PredatesTagged(x.ack.value)) && Ready(json, max, x.peer)
        && x.peer == p.(seen := x.peer.seen) && |x.peer.seen| == |p.seen| + 1
      else
        x.ack.Ok? ==> !PredatesTagged(x.ack.value)
  {
    ExchangeHandles(json, max, p, e, f);
    var g := Arrives(p.gen, max, f);
    if p.gen != Current && Tagged(f) {
      OlderAlwaysPredates(p, e, g);
    } else {
      NameShape(g.ftype);
      NamedNeverPredates(p, e, g);
    }
  }

  /** What sending `last` to a service in state p comes to. */
  ghost predicate Outcome(p: Peer, e: Env, last: Frame, max: nat, after: Peer, r: Option<SendResult>) {
    if !Sendable(max, last) then r.None? && after.stored == p.stored
    else
      var h := Handle(p, e, Delivered(last));
      && after == h.peer.(seen := after.seen)
      && |after.seen| > |p.seen| && after.seen[|after.seen| - 1] == Delivered(last)
      && (r.Some? <==> Heard(max, h.answer).Ok?)
      && (r.Some? ==> r.value.ack == h.answer.value && (r.value.tagged <==> Tagged(last)))
      && (Storable(Delivered(last)) ==>
            if r.Some? then ExactlyOnce(p.stored, after.stored, Delivered(last), r.value) else after.stored == p.stored)
  }

  function Judged(ack: Result<Frame, Failure>, tagged: bool): Option<SendResult> {
    match ack case Ok(a) => Some(Judge(a, tagged)) case Err(_) => None
  }

  /** What Send returned, if it was not an error. */
  function Got(r: Result<SendResult, Failure>): Option<SendResult> {
    match r case Ok(v) => Some(v) case Err(_) => None
  }

  lemma SeenIsAppended(q: Peer, e: Env, g: Frame)
    ensures Handle(q, e, g).peer.seen == q.seen + [g]
  {
  }

  /** What the handler got before does not matter to it. */
  lemma SeenIsNotRead(p: Peer, q: Peer, e: Env, g: Frame)
    requires q == p.(seen := q.seen)
    ensures Handle(q, e, g).answer == Handle(p, e, g).answer
    ensures Handle(q, e, g).peer == Handle(p, e, g).peer.(seen := Handle(q, e, g).peer.seen)
  {
    var p1, q1 := Arrived(p, e, g), Arrived(q, e, g);
    assert q1 == p1.(seen := q1.seen);
    DispatchReadsNoSeen(p1, q1, e, g);
  }

  lemma DispatchReadsNoSeen(p: Peer, q: Peer, e: Env, g: Frame)
    requires q == p.(seen := q.seen)
    ensures Dispatch(q, e, g).answer == Dispatch(p, e, g).answer
    ensures Dispatch(q, e, g).peer == Dispatch(p, e, g).peer.(seen := q.seen)
  {
  }

  /** The exchange that carries `last` as a message settles the outcome. */
  lemma LastAnswer(json: Unmarshal, max: nat, p: Peer, q: Peer, e: Env, last: Frame)
    requires Ready(json, max, q) && Bounded(e) && Sendable(max, last) && (q.gen == Current || !Tagged(last))
    requires q == p.(seen := q.seen) && |p.seen| <= |q.seen|
    ensures WireForm(max, last).Ok?
    ensures var x := Exchange(json, max, q, e, WireForm(max, last).value);
      Outcome(p, e, last, max, x.peer, Judged(x.ack, Tagged(last)))
  {
    ExchangeHandles(json, max, q, e, last);
    var g := Delivered(last);
    ArrivesFits(q.gen, max, last);
    SeenIsAppended(q, e, g);
    SeenIsNotRead(p, q, e, g);
    if Storable(g) {
      AnswerTellsStored(q, e, g, Tagged(last));
      UnheardStoredNothing(max, q, e, g);
    }
  }

  /** A frame other than a hand-built TAGGED one, and under 4 GiB on the wire. */
  predicate Regular(f: Frame) {
    f.ftype != TYPE_TAGGED && (WirePayload(f).Ok? ==> |WirePayload(f).value| < 0x1_0000_0000)
  }

  /** The answer to an untagged frame, or of a current service, is final. */
  lemma Settles(json: Unmarshal, max: nat, p: Peer, q: Peer, e: Env, last: Frame)
    requires Ready(json, max, q) && Bounded(e) && Regular(last) && (q.gen == Current || !Tagged(last))
    requires q == p.(seen := q.seen) && |p.seen| <= |q.seen| && WireForm(max, last).Ok?
    ensures var x := Exchange(json, max, q, e, WireForm(max, last).value);
      && Outcome(p, e, last, max, x.peer, Judged(x.ack, Tagged(last)))
      && (x.ack.Ok? ==> !PredatesTagged(x.ack.value))
    ensures Exhausts(json, max, q, e, WireForm(max, last).value)
  {
    if Sendable(max, last) {
      LastAnswer(json, max, p, q, e, last);
      FirstAnswer(json, max, q, e, last);
      ExchangeHandles(json, max, q, e, last);
    } else {
      ExchangeRefused(json, max, q, e, last);
    }
  }

  /** An older service that gets the tagged form makes Send fall back if its
      answer is heard, and is left as it was. */
  lemma FallsBack(json: Unmarshal, max: nat, p: Peer, e: Env, f: Frame)
    requires Ready(json, max, p) && Bounded(e) && f.ftype != TYPE_TAGGED && p.gen != Current && Tagged(f)
    requires WireForm(max, f).Ok?
    ensures OuterPayload(max, f).Ok? && Exhausts(json, max, p, e, WireForm(max, f).value)
    ensures var x := Exchange(json, max, p, e, WireForm(max, f).value);
      && x.ack == Heard(max, Handle(p, e, Arrives(p.gen, max, f)).answer)
      && (x.ack.Ok? ==> PredatesTagged(x.ack.value)) && Ready(json, max, x.peer)
      && x.peer == p.(seen := x.peer.seen) && |p.seen| <= |x.peer.seen|
  {
    FirstAnswer(json, max, p, e, f);
    ExchangeHandles(json, max, p, e, f);
  }

  lemma Forms(max: nat, f: Frame)
    ensures WireForm(max, f).Ok? || WireForm(max, f) == Err(TaggedTooLarge) ==> WireForm(max, WithoutTags(f)).Ok?
    ensures WireForm(max, f) == Err(TaggedTooLarge) ==> Tagged(f)
    ensures !Tagged(FirstForm(max, f)) ==> FirstForm(max, f) == WithoutTags(f)
    ensures f.ftype == TYPE_TAGGED && Tagged(f) ==> WireForm(max, FirstForm(max, f)).Err?
    ensures WirePayload(f) == WirePayload(WithoutTags(f)) && !Tagged(WithoutTags(f))
    ensures WireForm(max, FirstForm(max, f)).Ok? ==> OuterPayload(max, FirstForm(max, f)).Ok?
    ensures max < 0x8000_0000 && WireForm(max, FirstForm(max, f)).Ok? && !Regular(f) ==> !Tagged(FirstForm(max, f))
    ensures Regular(f) ==> Regular(FirstForm(max, f)) && Regular(WithoutTags(f))
  {
  }

  /** An older service answers the tagged form so that the client hears it. */
  predicate Falls(p: Peer, e: Env, max: nat, f: Frame)
    requires WireForm(max, FirstForm(max, f)).Ok?
  {
    var first := FirstForm(max, f);
    p.gen != Current && Tagged(first) && Heard(max, Handle(p, e, Arrives(p.gen, max, first)).answer).Ok?
  }

  /** What Send of a regular frame comes to: `turns` frames were written. */
  ghost predicate Sent(p: Peer, e1: Env, e2: Env, f: Frame, max: nat, turns: nat, after: Peer, r: Option<SendResult>)
    requires WireForm(max, FirstForm(max, f)).Ok?
  {
    if Falls(p, e1, max, f) then turns == 2 && Outcome(p, e2, WithoutTags(f), max, after, r)
    else if p.gen != Current && Tagged(FirstForm(max, f)) then turns == 1 && r.None? && after.stored == p.stored
    else turns == 1 && Outcome(p, e1, FirstForm(max, f), max, after, r)
  }

  /** A connection, the service at its other end, and how many frames it was sent. */
  class Link {
    const conn: Conn
    const json: Unmarshal
    const max: nat
    var peer: Peer
    var turns: nat

    constructor (json: Unmarshal, max: nat, peer: Peer)
      ensures fresh(conn) && conn.inbound == [] && conn.outbound == []
      ensures this.json == json && this.max == max && this.peer == peer && turns == 0
    {
      conn := new Conn();
      this.json, this.max, this.peer, turns := json, max, peer, 0;
    }

    ghost predicate Valid()
      reads this, conn
    {
      Ready(json, max, peer) && conn.inbound == [] && conn.outbound == []
    }

    /** The service handles what was written and its answer comes back. */
    method Turn(e: Env)
      requires peer.open && conn.inbound == []
      modifies this, conn
      ensures conn.inbound == Serve(json, max, old(peer), e, old(conn.outbound)).answer
      ensures peer == Serve(json, max, old(peer), e, old(conn.outbound)).peer
      ensures conn.outbound == [] && turns == old(turns) + 1
    {
      var served := Serve(json, max, peer, e, conn.outbound);
      peer, turns := served.peer, turns + 1;
      conn.inbound, conn.outbound := served.answer, [];
    }

    /** Waits for the answer to what was just written. */
    method Await(e: Env) returns (r: Result<Frame, Failure>)
      requires peer.open && CacheOk(peer) && conn.inbound == []
      modifies this, conn
      ensures turns == old(turns) + 1 && conn.outbound == [] && CacheOk(peer)
      ensures Reply(peer, r) == Exchange(json, max, old(peer), e, old(conn.outbound))
      ensures r.Ok? && Exhausts(json, max, old(peer), e, old(conn.outbound)) ==> conn.inbound == []
    {
      ExchangeKeepsCache(json, max, peer, e, conn.outbound);
      Turn(e);
      r := conn.ReadFrame(json, max);
    }

    /** Writes the tagged form, or the untagged one when the tag does not fit. */
    method WriteFirst(f: Frame) returns (w: Result<(), Failure>, tagged: bool)
      requires conn.outbound == []
      modifies conn`outbound
      ensures w.Ok? ==> WireForm(max, FirstForm(max, f)) == Ok(conn.outbound) && tagged == Tagged(FirstForm(max, f))
      ensures w.Err? ==> WireForm(max, FirstForm(max, f)).Err?
    {
      Forms(max, f);
      tagged := Tagged(f);
      w := conn.WriteFrame(max, f);
      if tagged && w == Err(TaggedTooLarge) {
        tagged := false;
        w := conn.WriteFrame(max, WithoutTags(f));
      }
      if w.Ok? {
        ghost var s := WireForm(max, FirstForm(max, f)).value;
        assert [] + s == s;
      }
    }

    /** The first answer is final, or it is an older service's answer to a tag. */
    method AwaitFirst(ghost first: Frame, e: Env) returns (ack: Result<Frame, Failure>)
      requires Ready(json, max, peer) && conn.inbound == [] && Bounded(e)
      requires WireForm(max, first) == Ok(conn.outbound) && OuterPayload(max, first).Ok?
      modifies this, conn
      ensures turns == old(turns) + 1 && conn.outbound == [] && CacheOk(peer)
      ensures Reply(peer, ack) == Exchange(json, max, old(peer), e, old(conn.outbound))
      ensures Regular(first) && (old(peer).gen == Current || !Tagged(first)) ==>
        && Outcome(old(peer), e, first, max, peer, Judged(ack, Tagged(first)))
        && (ack.Ok? ==> !PredatesTagged(ack.value))
      ensures Regular(first) && old(peer).gen != Current && Tagged(first) ==>
        && ack == Heard(max, Handle(old(peer), e, Arrives(old(peer).gen, max, first)).answer)
        && (ack.Ok? ==> PredatesTagged(ack.value) && conn.inbound == []) && Ready(json, max, peer)
        && peer == old(peer).(seen := peer.seen) && |old(peer).seen| <= |peer.seen|
    {
      ghost var p := peer;
      ack := Await(e);
      if Regular(first) {
        if p.gen == Current || !Tagged(first) { Settles(json, max, p, p, e, first); }
        else { FallsBack(json, max, p, e, first); }
      }
    }

    /** The second attempt, without tags, on the same connection. */
    method SendPlain(plain: Frame, e: Env, ghost p: Peer) returns (r: Result<SendResult, Failure>)
      requires Valid() && Bounded(e) && Regular(plain) && !Tagged(plain) && WireForm(max, plain).Ok?
      requires peer == p.(seen := peer.seen) && |p.seen| <= |peer.seen|
      modifies this, conn
      ensures turns == old(turns) + 1 && CacheOk(peer) && Outcome(p, e, plain, max, peer, Got(r))
    {
      ghost var q := peer;
      var w := conn.WriteFrame(max, plain);
      ghost var s := WireForm(max, plain).value;
      assert [] + s == s;
      Settles(json, max, p, q, e, plain);
      var ack := Await(e);
      r := if ack.Ok? then Ok(Judge(ack.value, false)) else Err(ack.error);
    }

    /**
     * sendAndAwaitAck. Nothing happens if no form can be written. A regular
     * frame then ends as `Sent` says: how many frames were written, what the
     * handler got last, whether the IDs got there, and what was stored. One
     * that is not regular is exchanged once, as it is.
     * e1 and e2 are what the outside decides during the exchanges.
     */
    method SendAndAwaitAck(f: Frame, e1: Env, e2: Env) returns (r: Result<SendResult, Failure>)
      requires Valid() && Bounded(e1) && Bounded(e2)
      modifies this, conn
      ensures CacheOk(peer)
      ensures WireForm(max, FirstForm(max, f)).Err? ==> r.Err? && peer == old(peer) && turns == old(turns)
      ensures WireForm(max, FirstForm(max, f)).Ok? && Regular(f) ==>
        turns >= old(turns) && Sent(old(peer), e1, e2, f, max, turns - old(turns), peer, Got(r))
      ensures WireForm(max, FirstForm(max, f)).Ok? && !Regular(f) ==>
        var x := Exchange(json, max, old(peer), e1, WireForm(max, FirstForm(max, f)).value);
        turns == old(turns) + 1 && peer == x.peer && Got(r) == Judged(x.ack, false)
    {
      Forms(max, f);
      var w, tagged := WriteFirst(f);
      if w.Err? { return Err(w.error); }
      ghost var p, first := peer, FirstForm(max, f);
      var ack := AwaitFirst(first, e1);
      if ack.Ok? && tagged && PredatesTagged(ack.value) {
        r := SendPlain(WithoutTags(f), e2, p);
      } else {
        r := if ack.Ok? then Ok(Judge(ack.value, tagged)) else Err(ack.error);
        assert Got(r) == Judged(ack, Tagged(first));
      }
    }
  }
}
