/**
 * How a service handles the frames it reads (`handleConn` in `service.go`), in
 * its three generations as `client.go` tells them apart: Silent, which
 * acknowledges a type it does not know and drops it, Refusing, which answers
 * ERR, and Current, which unwraps tagged frames and suppresses duplicates.
 */
module Service {
  import opened Prelude
  import opened Wire
  import opened Frames
  import opened FrameLaws
  import opened Names
  import opened DedupeSpec

  datatype Generation = Silent | Refusing | Current

  /** What a FILESTREAM frame is answered with. */
  datatype StreamReply = NoReply | Control(payload: Bytes) | NoDir(reason: Bytes) | NoMkdir(reason: Bytes)

  /** What the outside decides around one frame: how long it took to come,
      whether saving works, and the texts this model does not compute. */
  datatype Env = Env(elapsed: nat, saveErr: Option<Bytes>, timing: Bytes, stream: StreamReply)

  /** A duplicate cache with its settings; one that is switched off has room for none. */
  datatype Cache = Cache(sys: System, window: nat, max: nat)

  /** A service, as one sender sees it. `seen` are the frames its handler got;
      `digest` is the hash behind the keys of its two caches. */
  datatype Peer = Peer(gen: Generation, open: bool, seen: seq<Frame>, stored: seq<Frame>,
                       byID: Cache, byContent: Cache, digest: Frame -> Key)

  function Text(text: Bytes): Frame { Plain(TYPE_TEXT, text, []) }

  predicate Eligible(t: uint32) { t == TYPE_TEXT || t == TYPE_JSON || t == TYPE_BINARY || t == TYPE_FILE }

  /** Frames the service stores as they are. */
  predicate Storable(f: Frame) { Eligible(f.ftype) && (f.ftype == TYPE_FILE ==> f.filename != []) }

  /** An older service has no name for a tagged frame. */
  function NameIn(gen: Generation, t: uint32): Bytes {
    if gen != Current && t == TYPE_TAGGED then Unknown(t) else TypeName(t)
  }

  function AckText(gen: Generation, f: Frame): Bytes {
    Ascii("ACK ") + NameIn(gen, f.ftype) + [SPACE] + Dec(|f.payload|) + Ascii(" bytes")
  }

  function ErrText(gen: Generation, f: Frame, reason: Bytes): Bytes {
    Ascii("ERR ") + NameIn(gen, f.ftype) + [SPACE] + Ascii("save failed: ") + reason
  }

  const DUPLICATE := " (duplicate)"

  datatype Handled = Handled(peer: Peer, answer: Option<Frame>)

  /** q is p with perhaps more stored, or hung up. */
  ghost predicate StoredMore(p: Peer, q: Peer) {
    q == p.(stored := q.stored, open := q.open) && p.stored <= q.stored
  }

  /** A save that may fail, answered with ACK or ERR. */
  function Save(p: Peer, f: Frame, kept: seq<Frame>, saveErr: Option<Bytes>): (h: Handled)
    ensures StoredMore(p, h.peer)
  {
    match saveErr
    case Some(reason) => Handled(p, Some(Text(ErrText(p.gen, f, reason))))
    case None => Handled(p.(stored := p.stored + kept), Some(Text(AckText(p.gen, f))))
  }

  function HandleStream(p: Peer, reply: StreamReply): (h: Handled)
    ensures h.peer == p.(open := h.peer.open)
  {
    match reply
    case NoReply => Handled(p, None)
    case Control(payload) => Handled(p, Some(Plain(TYPE_FILE_STREAM, payload, [])))
    case NoDir(reason) => Handled(p.(open := false), Some(Text(Ascii("ERR received dir: ") + reason)))
    case NoMkdir(reason) => Handled(p.(open := false), Some(Text(Ascii("ERR mkdir: ") + reason)))
  }

  /** The message inside a trace frame. */
  function Traced(f: Frame): Frame
    requires |f.payload| >= 12
  {
    BigUnbig(f.payload[..4]);
    Widths();
    Frame(Unbig(f.payload[..4]), f.payload[12..], [], f.messageID, f.replyTo)
  }

  function HandleTrace(p: Peer, e: Env, f: Frame): (h: Handled)
    ensures StoredMore(p, h.peer)
  {
    if |f.payload| < 12 then Handled(p, Some(Text(Ascii("ERR trace parse: ") + e.timing)))
    else
      Handled(if e.saveErr.None? then p.(stored := p.stored + [Traced(f)]) else p,
              Some(Plain(TYPE_JSON, e.timing, [])))
  }

  /** The switch on the frame's type. */
  function Dispatch(p: Peer, e: Env, f: Frame): (h: Handled)
    ensures StoredMore(p, h.peer)
  {
    if f.ftype == TYPE_FILE_STREAM then HandleStream(p, e.stream)
    else if f.ftype == TYPE_TRACE then HandleTrace(p, e, f)
    else if Storable(f) then Save(p, f, [f], e.saveErr)
    else if f.ftype == TYPE_FILE || p.gen == Silent then Save(p, f, [], None)
    else Save(p, f, [], Some(Unsupported(p.gen, e, f)))
  }

  /** Why a type is refused; a service of the Refusing generation may have had other reasons. */
  function Unsupported(gen: Generation, e: Env, f: Frame): Bytes {
    if gen != Current && e.saveErr.Some? then e.saveErr.value else Ascii("unsupported frame type ") + Dec(f.ftype)
  }

  /** saveErr == nil, of a frame the caches are about. */
  predicate Saves(e: Env, f: Frame) { !Storable(f) || e.saveErr.None? }

  // ---- its duplicate caches ----------------------------------------------

  /** dedupeCacheFor: frames with an ID and frames without have a cache each. */
  function CacheFor(p: Peer, f: Frame): Cache { if f.messageID != [] then p.byID else p.byContent }

  function WithCache(p: Peer, f: Frame, sys: System): (q: Peer)
    ensures q == p.(byID := q.byID, byContent := q.byContent)
    ensures CacheFor(q, f) == CacheFor(p, f).(sys := sys)
  {
    if f.messageID != [] then p.(byID := p.byID.(sys := sys)) else p.(byContent := p.byContent.(sys := sys))
  }

  function Later(c: Cache, d: nat): Cache { c.(sys := c.sys.(now := c.sys.now + d)) }

  /** The frame reaches the handler, e.elapsed after the one before. */
  function Arrived(p: Peer, e: Env, f: Frame): (q: Peer)
    ensures q.gen == p.gen && q.digest == p.digest && q.stored == p.stored && q.open == p.open && q.seen == p.seen + [f]
  {
    if p.gen != Current then p.(seen := p.seen + [f])
    else p.(seen := p.seen + [f], byID := Later(p.byID, e.elapsed), byContent := Later(p.byContent, e.elapsed))
  }

  /** What the cache still remembers. */
  function Fresh(c: Cache): seq<Record<int>> { Expire(c.sys.mem.live, c.sys.now) }

  function AckOf(live: seq<Record<int>>, key: Key): Ack
    requires Remembers(live, key)
  {
    if live[0].key == key then live[0].ack
    else
      assert live == [live[0]] + live[1..];
      AckOf(live[1..], key)
  }

  predicate Deduped(p: Peer, f: Frame) { p.gen == Current && Eligible(f.ftype) }

  /** A copy of f is remembered. */
  predicate Known(p: Peer, f: Frame) { Deduped(p, f) && Remembers(Fresh(CacheFor(p, f)), p.digest(f)) }

  predicate Suppressed(p: Peer, e: Env, f: Frame) { Known(Arrived(p, e, f), f) }

  /** A delivery the cache does not know: claimed, handled, and remembered if it was stored. */
  function Finished(c: Cache, key: Key, stored: bool, ack: Ack): System
    requires !Remembers(Fresh(c), key)
  {
    AfterFinish(AfterBegin(c.sys, key), key, stored, ack, c.window, c.max)
  }

  /** One turn of the frame loop, after the frame was read. */
  function Handle(before: Peer, e: Env, f: Frame): Handled {
    var p := Arrived(before, e, f);
    if !Deduped(p, f) then Dispatch(p, e, f)
    else
      var c, key := CacheFor(p, f), p.digest(f);
      if Known(p, f) then
        Handled(WithCache(p, f, AfterBegin(c.sys, key)), Some(Text(AckOf(Fresh(c), key) + Ascii(DUPLICATE))))
      else
        var h := Dispatch(p, e, f);
        Handled(WithCache(h.peer, f, Finished(c, key, Saves(e, f), AckText(p.gen, f))), h.answer)
  }

  // ---- what they remember ------------------------------------------------

  /** The record r is of delivery g, acknowledged as g is and stored if g can be. */
  ghost predicate Vouches(gen: Generation, digest: Frame -> Key, stored: seq<Frame>, r: Record<int>, g: Frame) {
    digest(g) == r.key && r.ack == AckText(gen, g) && Eligible(g.ftype) && (Storable(g) ==> g in stored)
  }

  ghost predicate Backed(gen: Generation, digest: Frame -> Key, stored: seq<Frame>, live: seq<Record<int>>) {
    forall i :: 0 <= i < |live| ==> Vouched(gen, digest, stored, live[i])
  }

  ghost predicate Vouched(gen: Generation, digest: Frame -> Key, stored: seq<Frame>, r: Record<int>) {
    exists g :: Vouches(gen, digest, stored, r, g)
  }

  /** Two deliveries never share a digest. */
  ghost predicate Injective(digest: Frame -> Key) {
    forall f, g :: digest(f) == digest(g) ==> f == g
  }

  /** Between frames nothing of this sender is in flight. */
  ghost predicate CacheInv(p: Peer, c: Cache) {
    DedupeSpec.Inv(c.sys, c.window, c.max) && c.sys.mem.flying == map[] && Backed(p.gen, p.digest, p.stored, c.sys.mem.live)
  }

  ghost predicate CacheOk(p: Peer) {
    Injective(p.digest) && CacheInv(p, p.byID) && CacheInv(p, p.byContent)
  }

  /** A service that just started. */
  lemma StartsOk(p: Peer)
    requires Starts(p)
    ensures CacheOk(p)
  {
    DedupeSpec.InitialInv(p.byID.sys, p.byID.window, p.byID.max);
    DedupeSpec.InitialInv(p.byContent.sys, p.byContent.window, p.byContent.max);
  }

  lemma BackedMore(gen: Generation, digest: Frame -> Key, stored: seq<Frame>, more: seq<Frame>, live: seq<Record<int>>)
    requires Backed(gen, digest, stored, live) && stored <= more
    ensures Backed(gen, digest, more, live)
  {
    forall i | 0 <= i < |live| ensures Vouched(gen, digest, more, live[i]) {
      assert Vouched(gen, digest, stored, live[i]);
      var g :| Vouches(gen, digest, stored, live[i], g);
      assert Vouches(gen, digest, more, live[i], g);
    }
  }

  lemma BackedSuffix(gen: Generation, digest: Frame -> Key, stored: seq<Frame>, live: seq<Record<int>>, cut: nat)
    requires Backed(gen, digest, stored, live) && cut <= |live|
    ensures Backed(gen, digest, stored, live[cut..])
  {
  }

  lemma BackedAppend(gen: Generation, digest: Frame -> Key, stored: seq<Frame>, live: seq<Record<int>>, r: Record<int>, g: Frame)
    requires Backed(gen, digest, stored, live) && Vouches(gen, digest, stored, r, g)
    ensures Backed(gen, digest, stored, live + [r])
  {
    assert Vouched(gen, digest, stored, r);
  }

  lemma LaterInv(p: Peer, q: Peer, c: Cache, d: nat)
    requires CacheInv(p, c) && q.gen == p.gen && q.digest == p.digest && p.stored <= q.stored
    ensures CacheInv(q, Later(c, d))
  {
    DedupeSpec.StepInv(c.sys, Tick(d), c.window, c.max);
    BackedMore(p.gen, p.digest, p.stored, q.stored, c.sys.mem.live);
  }

  lemma MoreInv(p: Peer, q: Peer, c: Cache)
    requires CacheInv(p, c) && q.gen == p.gen && q.digest == p.digest && p.stored <= q.stored
    ensures CacheInv(q, c)
  {
    BackedMore(p.gen, p.digest, p.stored, q.stored, c.sys.mem.live);
  }

  /** What a claim leaves in the cache: nothing expired, and the key in flight unless it is remembered. */
  lemma BeginMem(c: Cache, key: Key)
    requires c.sys.mem.flying == map[]
    ensures var mem := AfterBegin(c.sys, key).mem;
            mem == Memory(if Remembers(Fresh(c), key) then map[] else map[key := c.sys.nextEntry], Fresh(c))
  {
  }

  lemma FreshBacked(p: Peer, c: Cache)
    requires Backed(p.gen, p.digest, p.stored, c.sys.mem.live)
    ensures Backed(p.gen, p.digest, p.stored, Fresh(c))
  {
    ExpireSuffix(c.sys.mem.live, c.sys.now);
    BackedSuffix(p.gen, p.digest, p.stored, c.sys.mem.live, |c.sys.mem.live| - |Fresh(c)|);
  }

  /** What remembering f adds to a backed queue, trimmed. */
  lemma KeptBacked(q: Peer, live: seq<Record<int>>, r: Record<int>, f: Frame, max: nat)
    requires Backed(q.gen, q.digest, q.stored, live) && Vouches(q.gen, q.digest, q.stored, r, f)
    ensures Backed(q.gen, q.digest, q.stored, Trim(live + [r], max))
  {
    BackedAppend(q.gen, q.digest, q.stored, live, r, f);
    if |live + [r]| > max { BackedSuffix(q.gen, q.digest, q.stored, live + [r], |live + [r]| - max); }
  }

  /** What a finished delivery leaves in the cache. */
  lemma FinishMem(c: Cache, key: Key, stored: bool, ack: Ack)
    requires c.sys.mem.flying == map[] && !Remembers(Fresh(c), key)
    ensures var r := Record(key, c.sys.nextEntry, ack, c.sys.now + c.window);
            Finished(c, key, stored, ack).mem == Memory(map[], if stored then Trim(Fresh(c) + [r], c.max) else Fresh(c))
  {
    BeginMem(c, key);
    assert map[key := c.sys.nextEntry] - {key} == map[];
  }

  lemma FinishInv(c: Cache, key: Key, stored: bool, ack: Ack)
    requires DedupeSpec.Inv(c.sys, c.window, c.max) && c.sys.mem.flying == map[] && !Remembers(Fresh(c), key)
    ensures DedupeSpec.Inv(Finished(c, key, stored, ack), c.window, c.max)
  {
    BeginInv(c.sys, key, c.window, c.max);
    DedupeSpec.StepInv(AfterBegin(c.sys, key), Finish(key, stored, ack), c.window, c.max);
  }

  lemma FinishKeeps(p: Peer, q: Peer, c: Cache, f: Frame, stored: bool)
    requires CacheInv(p, c) && !Remembers(Fresh(c), p.digest(f)) && Eligible(f.ftype)
    requires q.gen == p.gen && q.digest == p.digest && p.stored <= q.stored && (stored && Storable(f) ==> f in q.stored)
    ensures CacheInv(q, c.(sys := Finished(c, p.digest(f), stored, AckText(p.gen, f))))
  {
    var key, ack := p.digest(f), AckText(p.gen, f);
    FinishInv(c, key, stored, ack);
    FinishMem(c, key, stored, ack);
    FreshBacked(p, c);
    BackedMore(p.gen, p.digest, p.stored, q.stored, Fresh(c));
    if stored { KeptBacked(q, Fresh(c), Record(key, c.sys.nextEntry, ack, c.sys.now + c.window), f, c.max); }
  }

  lemma ArrivedInv(p: Peer, e: Env, f: Frame)
    requires CacheOk(p)
    ensures CacheOk(Arrived(p, e, f))
  {
    var q := Arrived(p, e, f);
    LaterInv(p, q, p.byID, e.elapsed);
    LaterInv(p, q, p.byContent, e.elapsed);
    MoreInv(p, q, p.byID);
    MoreInv(p, q, p.byContent);
  }

  lemma WithCacheOk(p: Peer, q: Peer, f: Frame, sys: System)
    requires CacheOk(p) && StoredMore(p, q) && CacheInv(q, CacheFor(p, f).(sys := sys))
    ensures CacheOk(WithCache(q, f, sys))
  {
    var r := WithCache(q, f, sys);
    MoreInv(p, r, p.byID);
    MoreInv(p, r, p.byContent);
    MoreInv(q, r, CacheFor(p, f).(sys := sys));
  }

  lemma KnownKeeps(p: Peer, f: Frame)
    requires CacheOk(p) && Known(p, f)
    ensures CacheOk(WithCache(p, f, AfterBegin(CacheFor(p, f).sys, p.digest(f))))
  {
    var sys := AfterBegin(CacheFor(p, f).sys, p.digest(f));
    BeginMem(CacheFor(p, f), p.digest(f));
    BeginInv(CacheFor(p, f).sys, p.digest(f), CacheFor(p, f).window, CacheFor(p, f).max);
    FreshBacked(p, CacheFor(p, f));
    WithCacheOk(p, p, f, sys);
  }

  lemma FreshKeeps(p: Peer, e: Env, f: Frame)
    requires CacheOk(p) && Deduped(p, f) && !Known(p, f)
    ensures CacheOk(WithCache(Dispatch(p, e, f).peer, f, Finished(CacheFor(p, f), p.digest(f), Saves(e, f), AckText(p.gen, f))))
  {
    var q := Dispatch(p, e, f).peer;
    FinishKeeps(p, q, CacheFor(p, f), f, Saves(e, f));
    WithCacheOk(p, q, f, Finished(CacheFor(p, f), p.digest(f), Saves(e, f), AckText(p.gen, f)));
  }

  /** Whatever frame is handled: the caches remember exactly the newest stored
      deliveries, each with its own ACK, and what they remember was stored. */
  lemma HandleKeepsCache(before: Peer, e: Env, f: Frame)
    requires CacheOk(before)
    ensures CacheOk(Handle(before, e, f).peer)
  {
    var p := Arrived(before, e, f);
    ArrivedInv(before, e, f);
    if !Deduped(p, f) {
      var q := Dispatch(p, e, f).peer;
      MoreInv(p, q, p.byID);
      MoreInv(p, q, p.byContent);
    } else if Known(p, f) {
      KnownKeeps(p, f);
    } else {
      FreshKeeps(p, e, f);
    }
  }

  lemma {:induction false} AckOfIs(live: seq<Record<int>>, key: Key) returns (i: nat)
    requires Remembers(live, key)
    ensures i < |live| && live[i].key == key && live[i].ack == AckOf(live, key)
  {
    if live[0].key == key {
      i := 0;
    } else {
      assert live == [live[0]] + live[1..];
      i := AckOfIs(live[1..], key);
      i := i + 1;
    }
  }

  /** What a duplicate is answered with is the ACK of that very frame, and a
      storable one was stored. */
  lemma KnownIsAcked(p: Peer, f: Frame)
    requires CacheOk(p) && Known(p, f)
    ensures AckOf(Fresh(CacheFor(p, f)), p.digest(f)) == AckText(p.gen, f) && (Storable(f) ==> f in p.stored)
  {
    var c, key := CacheFor(p, f), p.digest(f);
    FreshBacked(p, c);
    var i := AckOfIs(Fresh(c), key);
    assert Vouched(p.gen, p.digest, p.stored, Fresh(c)[i]);
    var g :| Vouches(p.gen, p.digest, p.stored, Fresh(c)[i], g);
    assert g == f;
  }

  // ---- what is stored, and which cache decides ---------------------------

  /** What the current service stores of a frame it does not suppress, when saving
      works: TEXT, BINARY, JSON and FILE frames (types 1 to 4) as they are, but not
      a FILE without a name; of a TRACE frame (type 5) the message inside, with the
      IDs of the frame; of any other nothing. When saving fails, nothing at all. */
  lemma StoredExactly(p: Peer, e: Env, f: Frame)
    requires p.gen == Current && !Suppressed(p, e, f)
    ensures var whole := 1 <= f.ftype <= 3 || (f.ftype == 4 && f.filename != []);
            Handle(p, e, f).peer.stored ==
              if e.saveErr.Some? then p.stored
              else if whole then p.stored + [f]
              else if f.ftype == 5 && |f.payload| >= 12
              then p.stored + [Frame(Unbig(f.payload[..4]), f.payload[12..], [], f.messageID, f.replyTo)]
              else p.stored
  {
  }

  /** Only frames of types 1 to 4 are suppressed; one with an ID by the cache of
      IDs and one without by the cache of contents, whatever the other remembers.
      Handling a frame changes that cache alone, and neither for other types. */
  lemma OwnCacheDecides(p: Peer, e: Env, f: Frame)
    requires p.gen == Current
    ensures var c := if f.messageID != [] then p.byID else p.byContent;
            Suppressed(p, e, f)
            <==> (1 <= f.ftype <= 4 && Remembers(Expire(c.sys.mem.live, c.sys.now + e.elapsed), p.digest(f)))
    ensures var q := Handle(p, e, f).peer;
            && (f.messageID != [] || f.ftype == 0 || f.ftype > 4 ==> q.byContent == Later(p.byContent, e.elapsed))
            && (f.messageID == [] || f.ftype == 0 || f.ftype > 4 ==> q.byID == Later(p.byID, e.elapsed))
            && q.byID.window == p.byID.window && q.byID.max == p.byID.max
            && q.byContent.window == p.byContent.window && q.byContent.max == p.byContent.max
  {
  }

  // ---- runs --------------------------------------------------------------

  /** One frame that reaches the handler, and what the outside does around it. */
  datatype Delivery = Delivery(e: Env, f: Frame)

  ghost function HandleAll(p: Peer, ds: seq<Delivery>): Peer
    decreases |ds|
  {
    if ds == [] then p else HandleAll(Handle(p, ds[0].e, ds[0].f).peer, ds[1..])
  }

  /** A service that has handled nothing yet. */
  ghost predicate Starts(p: Peer) {
    Injective(p.digest) && DedupeSpec.Initial(p.byID.sys) && DedupeSpec.Initial(p.byContent.sys)
  }

  lemma {:induction false} RunKeepsCache(p: Peer, ds: seq<Delivery>)
    requires CacheOk(p)
    ensures CacheOk(HandleAll(p, ds)) && HandleAll(p, ds).gen == p.gen
    decreases |ds|
  {
    if ds != [] {
      HandleKeepsCache(p, ds[0].e, ds[0].f);
      RunKeepsCache(Handle(p, ds[0].e, ds[0].f).peer, ds[1..]);
    }
  }

  /** Whatever frames a service got since it started, its caches are in order. */
  lemma ReachableCacheOk(p: Peer, ds: seq<Delivery>)
    requires Starts(p)
    ensures CacheOk(HandleAll(p, ds)) && HandleAll(p, ds).gen == p.gen
  {
    StartsOk(p);
    RunKeepsCache(p, ds);
  }
}
