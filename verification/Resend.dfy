/**
 * Sending one message again: the duplicate caches of the current service, with
 * their window and their size, keep it to one stored copy.
 */
module Resend {
  import opened Prelude
  import opened Wire
  import opened Frames
  import opened FrameLaws
  import opened DedupeSpec
  import opened Names
  import opened Service
  import opened Answers
  import opened Send

  ghost function Copies(stored: seq<Frame>, g: Frame): nat { multiset(stored)[g] }

  /** Trace frames are not deduplicated; none of these carries g inside. */
  ghost predicate NoTraceOf(ds: seq<Delivery>, g: Frame) {
    forall d :: d in ds ==> !Traces(d.f, g)
  }

  ghost predicate Traces(f: Frame, g: Frame) {
    f.ftype == TYPE_TRACE && |f.payload| >= 12 && Traced(f) == g
  }

  // ---- what one frame does to a cache ------------------------------------

  /** Time passed, and to the stores so far at most one was added, of the key. */
  ghost predicate Onward(c: Cache, c': Cache, elapsed: nat, key: Key) {
    && StoresMore(c.sys.stores, c'.sys.stores, key) && c'.sys.now == c.sys.now + elapsed
    && c'.window == c.window && c'.max == c.max
  }

  ghost predicate StoresMore(stores: seq<Stored>, stores': seq<Stored>, key: Key) {
    stores' == stores
    || (|stores'| == |stores| + 1 && stores <= stores' && stores'[|stores|].key == key)
  }

  lemma FinishedOnward(c: Cache, key: Key, stored: bool, ack: Ack)
    requires c.sys.mem.flying == map[] && !Remembers(Fresh(c), key)
    ensures var s := Finished(c, key, stored, ack);
            s.now == c.sys.now && s.stores == if stored then c.sys.stores + [Stored(key, ack, c.sys.now)] else c.sys.stores
  {
    BeginMem(c, key);
  }

  lemma WithCacheOnward(p: Peer, f: Frame, sys: System, g: Frame)
    requires StoresMore(CacheFor(p, f).sys.stores, sys.stores, p.digest(f)) && sys.now == CacheFor(p, f).sys.now
    ensures Onward(CacheFor(p, g), CacheFor(WithCache(p, f, sys), g), 0, p.digest(f))
  {
  }

  lemma ArrivedOnward(p: Peer, e: Env, f: Frame, g: Frame)
    requires p.gen == Current
    ensures CacheFor(Arrived(p, e, f), g) == Later(CacheFor(p, g), e.elapsed)
  {
  }

  /** The handling itself takes no time. */
  lemma HandledOnward(p: Peer, e: Env, f: Frame, g: Frame)
    requires CacheOk(p) && Deduped(p, f)
    ensures var c, key := CacheFor(p, f), p.digest(f);
            && (Known(p, f) ==> Onward(CacheFor(p, g), CacheFor(WithCache(p, f, AfterBegin(c.sys, key)), g), 0, key))
            && (!Known(p, f) ==>
                  var q := WithCache(Dispatch(p, e, f).peer, f, Finished(c, key, Saves(e, f), AckText(p.gen, f)));
                  Onward(CacheFor(p, g), CacheFor(q, g), 0, key))
  {
    var c, key := CacheFor(p, f), p.digest(f);
    if Known(p, f) {
      WithCacheOnward(p, f, AfterBegin(c.sys, key), g);
    } else {
      FinishedOnward(c, key, Saves(e, f), AckText(p.gen, f));
      WithCacheOnward(Dispatch(p, e, f).peer, f, Finished(c, key, Saves(e, f), AckText(p.gen, f)), g);
    }
  }

  lemma HandleOnward(p: Peer, e: Env, f: Frame, g: Frame)
    requires CacheOk(p) && p.gen == Current
    ensures var q := Handle(p, e, f).peer;
            q.gen == Current && q.digest == p.digest && Onward(CacheFor(p, g), CacheFor(q, g), e.elapsed, p.digest(f))
  {
    ArrivedInv(p, e, f);
    ArrivedOnward(p, e, f, g);
    if Deduped(Arrived(p, e, f), f) { HandledOnward(Arrived(p, e, f), e, f, g); }
  }

  ghost function Elapsed(ds: seq<Delivery>): nat {
    if ds == [] then 0 else ds[0].e.elapsed + Elapsed(ds[1..])
  }

  /** The stores from n on are of frames in ds. */
  ghost predicate StoresOf(stores: seq<Stored>, n: nat, ds: seq<Delivery>, digest: Frame -> Key) {
    forall i :: n <= i < |stores| ==> KeyOfOne(ds, digest, stores[i].key)
  }

  ghost predicate KeyOfOne(ds: seq<Delivery>, digest: Frame -> Key, key: Key) {
    exists d :: d in ds && digest(d.f) == key
  }

  lemma StoresOfCons(stores: seq<Stored>, stores': seq<Stored>, stores'': seq<Stored>, ds: seq<Delivery>, digest: Frame -> Key)
    requires ds != [] && StoresMore(stores, stores', digest(ds[0].f)) && stores' <= stores''
    requires StoresOf(stores'', |stores'|, ds[1..], digest)
    ensures StoresOf(stores'', |stores|, ds, digest)
  {
    forall i | |stores| <= i < |stores''| ensures KeyOfOne(ds, digest, stores''[i].key) {
      if i < |stores'| {
        assert ds[0] in ds;
      } else {
        assert KeyOfOne(ds[1..], digest, stores''[i].key);
        var d :| d in ds[1..] && digest(d.f) == stores''[i].key;
        assert d in ds;
      }
    }
  }

  lemma {:induction false} RunOnward(p: Peer, ds: seq<Delivery>, g: Frame)
    requires CacheOk(p) && p.gen == Current
    ensures var v := HandleAll(p, ds);
            && CacheOk(v) && v.gen == Current && v.digest == p.digest
            && CacheFor(p, g).sys.stores <= CacheFor(v, g).sys.stores && CacheFor(v, g).sys.now == CacheFor(p, g).sys.now + Elapsed(ds)
            && |CacheFor(v, g).sys.stores| <= |CacheFor(p, g).sys.stores| + |ds|
            && StoresOf(CacheFor(v, g).sys.stores, |CacheFor(p, g).sys.stores|, ds, p.digest)
            && CacheFor(v, g).window == CacheFor(p, g).window && CacheFor(v, g).max == CacheFor(p, g).max
    decreases |ds|
  {
    if ds != [] {
      HandleOnward(p, ds[0].e, ds[0].f, g);
      HandleKeepsCache(p, ds[0].e, ds[0].f);
      var q := Handle(p, ds[0].e, ds[0].f).peer;
      RunOnward(q, ds[1..], g);
      StoresOfCons(CacheFor(p, g).sys.stores, CacheFor(q, g).sys.stores, CacheFor(HandleAll(p, ds), g).sys.stores, ds, p.digest);
    }
  }

  // ---- one copy ----------------------------------------------------------

  /** Store i of g's cache is of g, and at that time and with n stores in all it
      is still within the window and among the newest. */
  ghost predicate Recent(p: Peer, g: Frame, i: nat, now: int, n: nat) {
    var c := CacheFor(p, g);
    && i < |c.sys.stores| && c.sys.stores[i].key == p.digest(g)
    && now < c.sys.stores[i].at + c.window && n - i <= c.max
  }

  /** A recent delivery is suppressed when it comes again. */
  lemma RecentIsSuppressed(p: Peer, e: Env, g: Frame, i: nat)
    requires CacheOk(p) && p.gen == Current && Eligible(g.ftype)
    requires Recent(p, g, i, CacheFor(p, g).sys.now + e.elapsed, |CacheFor(p, g).sys.stores|)
    ensures Suppressed(p, e, g) && Handle(p, e, g).peer.stored == p.stored
  {
    ArrivedInv(p, e, g);
    var c := CacheFor(Arrived(p, e, g), g);
    RecentIsRemembered(c.sys, c.window, c.max, i);
  }

  /** Any other frame leaves the copies of g alone, unless it is a trace around g. */
  lemma OtherCopies(p: Peer, e: Env, f: Frame, g: Frame)
    requires f != g && !Traces(f, g)
    ensures Copies(Handle(p, e, f).peer.stored, g) == Copies(p.stored, g)
  {
    var p1 := Arrived(p, e, f);
    var q := Dispatch(p1, e, f).peer;
    if q.stored != p.stored {
      var kept := if f.ftype == TYPE_TRACE then Traced(f) else f;
      assert Storable(f) || f.ftype == TYPE_TRACE ==> q.stored == p.stored + [kept];
      assert !Storable(f) && f.ftype != TYPE_TRACE ==> q.stored == p.stored + [];
    }
  }

  lemma {:induction false} CopiesStay(p: Peer, ds: seq<Delivery>, g: Frame, i: nat)
    requires CacheOk(p) && p.gen == Current && Storable(g) && NoTraceOf(ds, g)
    requires var c := CacheFor(HandleAll(p, ds), g); Recent(p, g, i, c.sys.now, |c.sys.stores|)
    ensures Copies(HandleAll(p, ds).stored, g) == Copies(p.stored, g)
    decreases |ds|
  {
    if ds != [] {
      var e, f := ds[0].e, ds[0].f;
      var q := Handle(p, e, f).peer;
      assert ds[0] in ds;
      HandleOnward(p, e, f, g);
      HandleKeepsCache(p, e, f);
      RunOnward(q, ds[1..], g);
      if f == g { RecentIsSuppressed(p, e, g, i); } else { OtherCopies(p, e, f, g); }
      CopiesStay(q, ds[1..], g, i);
    }
  }

  /** The last delivery stored was of the key, and it was now. */
  ghost predicate JustStored(c: Cache, key: Key) {
    && c.sys.stores != []
    && c.sys.stores[|c.sys.stores| - 1].key == key && c.sys.stores[|c.sys.stores| - 1].at == c.sys.now
  }

  /** The first delivery is stored and remembered last. */
  lemma FirstStore(p: Peer, e: Env, g: Frame)
    requires CacheOk(p) && p.gen == Current && Storable(g) && !Suppressed(p, e, g) && e.saveErr.None?
    ensures var q := Handle(p, e, g).peer;
            q.stored == p.stored + [g] && JustStored(CacheFor(q, g), q.digest(g))
  {
    ArrivedInv(p, e, g);
    var c := CacheFor(Arrived(p, e, g), g);
    FinishedOnward(c, p.digest(g), true, AckText(p.gen, g));
  }

  /** However often a message is sent again, among whatever other traffic: while
      the window since its first delivery has not passed and fewer than `max`
      deliveries were stored since, there is one copy of it. */
  lemma ResendsStoreOnce(p: Peer, e: Env, g: Frame, ds: seq<Delivery>)
    requires CacheOk(p) && p.gen == Current && Storable(g) && !Suppressed(p, e, g) && e.saveErr.None?
    requires NoTraceOf(ds, g)
    requires var q := Handle(p, e, g).peer;
             var c, c' := CacheFor(q, g), CacheFor(HandleAll(q, ds), g);
             c'.sys.now < c.sys.now + c.window && |c'.sys.stores| - |c.sys.stores| < c.max
    ensures Copies(HandleAll(Handle(p, e, g).peer, ds).stored, g) == Copies(p.stored, g) + 1
  {
    var q := Handle(p, e, g).peer;
    HandleKeepsCache(p, e, g);
    HandleOnward(p, e, g, g);
    FirstStore(p, e, g);
    CopiesStay(q, ds, g, |CacheFor(q, g).sys.stores| - 1);
  }

  /** And each time it comes again it is answered as a duplicate. */
  lemma ResendIsDuplicate(p: Peer, e: Env, g: Frame, ds: seq<Delivery>, e': Env, tagged: bool)
    requires CacheOk(p) && p.gen == Current && Storable(g) && !Suppressed(p, e, g) && e.saveErr.None?
    requires var q := Handle(p, e, g).peer;
             var c, c' := CacheFor(q, g), CacheFor(HandleAll(q, ds), g);
             c'.sys.now + e'.elapsed < c.sys.now + c.window && |c'.sys.stores| - |c.sys.stores| < c.max
    ensures var v := HandleAll(Handle(p, e, g).peer, ds);
            var h := Handle(v, e', g);
            h.answer.Some? && Judge(h.answer.value, tagged).duplicate && h.peer.stored == v.stored
  {
    var q := Handle(p, e, g).peer;
    HandleKeepsCache(p, e, g);
    HandleOnward(p, e, g, g);
    FirstStore(p, e, g);
    RunOnward(q, ds, g);
    var v := HandleAll(q, ds);
    RecentIsSuppressed(v, e', g, |CacheFor(q, g).sys.stores| - 1);
    ArrivedInv(v, e', g);
    KnownIsAcked(Arrived(v, e', g), g);
    DuplicateIsMarked(v.gen, g, tagged);
  }

  /** The settings of the cache that decides about g. */
  ghost function WindowFor(p: Peer, g: Frame): nat { if g.messageID != [] then p.byID.window else p.byContent.window }
  ghost function RoomFor(p: Peer, g: Frame): nat { if g.messageID != [] then p.byID.max else p.byContent.max }

  /** When a stored message comes again, after fewer than `max` other frames, it
      is a duplicate exactly if the window has not passed: that of the cache of IDs
      if it has an ID, that of the cache of contents if not. Otherwise it is stored
      once more. */
  lemma DuplicateIffInWindow(p: Peer, e: Env, g: Frame, ds: seq<Delivery>, e': Env)
    requires CacheOk(p) && p.gen == Current && !Suppressed(p, e, g) && e.saveErr.None? && e'.saveErr.None?
    requires 1 <= g.ftype <= 3 || (g.ftype == 4 && g.filename != [])
    requires (forall d :: d in ds ==> d.f != g) && |ds| < RoomFor(p, g)
    ensures var v := HandleAll(Handle(p, e, g).peer, ds);
            var late := Elapsed(ds) + e'.elapsed >= WindowFor(p, g);
            && Suppressed(v, e', g) == !late
            && Handle(v, e', g).peer.stored == if late then v.stored + [g] else v.stored
  {
    var v := HandleAll(Handle(p, e, g).peer, ds);
    RunAfterStore(p, e, g, ds);
    SuppressedIffInWindow(p, CacheFor(Handle(p, e, g).peer, g), v, e', g, ds);
    if Suppressed(v, e', g) { SuppressedKeeps(v, e', g); } else { StoredExactly(v, e', g); }
  }

  lemma SuppressedKeeps(p: Peer, e: Env, f: Frame)
    requires Suppressed(p, e, f)
    ensures Handle(p, e, f).peer.stored == p.stored
  {
  }

  /** What is left of the store of g, by which c' came from c, after the frames in ds. */
  ghost predicate AfterStore(p: Peer, c: Cache, v: Peer, g: Frame, ds: seq<Delivery>) {
    var c' := CacheFor(v, g);
    && CacheOk(v) && v.gen == Current && v.digest == p.digest && JustStored(c, p.digest(g))
    && c'.window == WindowFor(p, g) && c'.max == RoomFor(p, g)
    && c.sys.stores <= c'.sys.stores && c'.sys.now == c.sys.now + Elapsed(ds)
    && StoresOf(c'.sys.stores, |c.sys.stores|, ds, p.digest) && |c'.sys.stores| <= |c.sys.stores| + |ds|
  }

  lemma RunAfterStore(p: Peer, e: Env, g: Frame, ds: seq<Delivery>)
    requires CacheOk(p) && p.gen == Current && !Suppressed(p, e, g) && e.saveErr.None? && Storable(g)
    ensures AfterStore(p, CacheFor(Handle(p, e, g).peer, g), HandleAll(Handle(p, e, g).peer, ds), g, ds)
  {
    HandleKeepsCache(p, e, g);
    HandleOnward(p, e, g, g);
    FirstStore(p, e, g);
    RunOnward(Handle(p, e, g).peer, ds, g);
  }

  lemma SuppressedIffInWindow(p: Peer, c: Cache, v: Peer, e': Env, g: Frame, ds: seq<Delivery>)
    requires AfterStore(p, c, v, g, ds) && Storable(g) && (forall d :: d in ds ==> d.f != g) && |ds| < RoomFor(p, g)
    ensures Suppressed(v, e', g) <==> Elapsed(ds) + e'.elapsed < WindowFor(p, g)
  {
    ArrivedInv(v, e', g);
    ArrivedOnward(v, e', g, g);
    OnlyFirstStore(c, CacheFor(Arrived(v, e', g), g), v.digest, g, ds, Elapsed(ds) + e'.elapsed);
  }

  /** With the last store of c the only one of g that can still count, g is
      remembered exactly within the window. */
  lemma OnlyFirstStore(c: Cache, c': Cache, digest: Frame -> Key, g: Frame, ds: seq<Delivery>, elapsed: nat)
    requires DedupeSpec.Inv(c'.sys, c'.window, c'.max) && Injective(digest) && (forall d :: d in ds ==> d.f != g)
    requires JustStored(c, digest(g)) && c.sys.stores <= c'.sys.stores && c'.sys.now == c.sys.now + elapsed
    requires StoresOf(c'.sys.stores, |c.sys.stores|, ds, digest) && |c'.sys.stores| < |c.sys.stores| + c'.max
    ensures Remembers(Fresh(c'), digest(g)) <==> elapsed < c'.window
  {
    RememberedIffRecent(c'.sys, c'.window, c'.max, digest(g));
    OtherKeys(c'.sys.stores, |c.sys.stores|, ds, digest, g);
    assert elapsed < c'.window ==> RecentStore(c'.sys, digest(g), |c.sys.stores| - 1, c'.window, c'.max);
  }

  lemma OtherKeys(stores: seq<Stored>, n: nat, ds: seq<Delivery>, digest: Frame -> Key, g: Frame)
    requires StoresOf(stores, n, ds, digest) && Injective(digest) && forall d :: d in ds ==> d.f != g
    ensures forall i :: n <= i < |stores| ==> stores[i].key != digest(g)
  {
    forall i | n <= i < |stores| ensures stores[i].key != digest(g) {
      assert KeyOfOne(ds, digest, stores[i].key);
    }
  }

  /** In particular for a service that just started and got whatever frames before. */
  lemma FreshServiceStoresOnce(start: Peer, before: seq<Delivery>, e: Env, g: Frame, ds: seq<Delivery>)
    requires Starts(start) && start.gen == Current && Storable(g) && e.saveErr.None? && NoTraceOf(ds, g)
    requires var p := HandleAll(start, before);
             && !Suppressed(p, e, g)
             && var q := Handle(p, e, g).peer;
                var c, c' := CacheFor(q, g), CacheFor(HandleAll(q, ds), g);
                c'.sys.now < c.sys.now + c.window && |c'.sys.stores| - |c.sys.stores| < c.max
    ensures var p := HandleAll(start, before);
            Copies(HandleAll(Handle(p, e, g).peer, ds).stored, g) == Copies(p.stored, g) + 1
  {
    ReachableCacheOk(start, before);
    ResendsStoreOnce(HandleAll(start, before), e, g, ds);
  }
}
