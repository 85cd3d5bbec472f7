/**
 * Who may touch which .partial: the invariant that every step of every
 * receiver keeps, whatever the interleaving.
 */
module Custody {
  import opened Prelude
  import opened Reassembly
  import opened Admission
  import opened Receivers

  // ---- the invariant -----------------------------------------------------

  ghost predicate Claimer(rs: Receivers, r: Rid, tok: Token) {
    r in rs && rs[r].pc.Claimed? && !rs[r].pc.prior && rs[r].pc.token == tok
  }

  /** An INIT in progress at r took over the claim `tok` and would hand it back. */
  ghost predicate Suspends(w: World, r: Rid, tok: Token) {
    && r in w.recv && w.recv[r].pc.Claimed? && !w.recv[r].pc.prior && w.recv[r].pc.prev == Some(tok)
    && Holds(w, w.recv[r].pc.job.partial, w.recv[r].pc.token)
    && Live(w, w.recv[r].pc.token)
  }

  /** The transfer holds its .partial, or would again if the INIT that took it over fails. */
  ghost predicate Protected(w: World, r: Rid, id: Id)
    requires Has(w.recv, r, id)
  {
    || Holds(w, X(w.recv, r, id).partial, X(w.recv, r, id).claim)
    || exists q :: Suspends(w, q, X(w.recv, r, id).claim)
  }

  ghost predicate Tables(w: World) {
    && (forall p :: p in w.claims ==> w.claims[p] in w.home && w.home[w.claims[p]] == p)
    && (forall tok :: tok in w.home ==>
          tok in w.last && tok < w.nextToken && Numbered(w, w.home[tok]) && !w.home[tok].Final?)
  }

  ghost predicate Files(w: World) {
    && (forall p :: p in w.dir ==> w.dir[p] in w.data && Numbered(w, p))
    && (forall p, q :: p in w.dir && q in w.dir && w.dir[p] == w.dir[q] ==> p == q)
    && (forall i :: i in w.data ==> i < w.nextInode)
  }

  ghost predicate PartialFor(p: Path, id: Id) {
    !p.Final? && p.id == id
  }

  ghost predicate TransferOk(w: World, r: Rid, id: Id)
    requires Has(w.recv, r, id)
  {
    var t := X(w.recv, r, id);
    && t.claim in w.home && w.home[t.claim] == t.partial && PartialFor(t.partial, id) && t.file in w.data
    && (Live(w, t.claim) || t.partial.Private? ==> Holds(w, t.partial, t.claim))
  }

  ghost predicate Transfers(w: World) {
    forall r, id :: Has(w.recv, r, id) ==> TransferOk(w, r, id)
  }

  ghost predicate NeverClaimed(w: World, p: Path) {
    && Numbered(w, p) && p !in w.dir
    && forall tok :: tok in w.home ==> w.home[tok] != p
  }

  ghost predicate ClaimedOk(w: World, r: Rid)
    requires r in w.recv && w.recv[r].pc.Claimed?
  {
    var rc := w.recv[r];
    var pc := rc.pc;
    var p := pc.job.partial;
    && pc.token in w.home && w.home[pc.token] == p && PartialFor(p, pc.job.id)
    && if pc.prior then pc.job.id in rc.transfers && rc.transfers[pc.job.id].claim == pc.token && pc.prev.None?
       else
         && pc.job.id !in rc.transfers && |rc.transfers| < MAX_TRANSFERS
         && (Live(w, pc.token) || p.Private? ==> Holds(w, p, pc.token))
         && (p.Private? ==> pc.prev.None?)
         && (pc.prev.Some? ==> var q := pc.prev.value;
                               q in w.home && w.home[q] == p && !Live(w, q) && !Holds(w, p, q))
  }

  ghost predicate PcOk(w: World, r: Rid)
    requires r in w.recv
  {
    var rc := w.recv[r];
    match rc.pc
    case Idle => true
    case Checked(job) =>
      && job.id !in rc.transfers && |rc.transfers| < MAX_TRANSFERS && PartialFor(job.partial, job.id)
      && (job.partial.Private? ==> NeverClaimed(w, job.partial))
    case Claimed(_, _, _, _) => ClaimedOk(w, r)
    case Draining(id) => id in rc.transfers
    case Verifying(id, h) =>
      && id in rc.transfers && rc.transfers[id].buf.cursor == rc.transfers[id].buf.size
      && (Has(w.recv, r, id) && Protected(w, r, id) ==>
            rc.transfers[id].file in w.data && h <= w.data[rc.transfers[id].file])
    case Verified(id, h) => VerifiedOk(w, r, id, h)
    case Prepared(id, h) => VerifiedOk(w, r, id, h)
    case Renamed(id, f) => id in rc.transfers && f.Final?
    case Abandoning(id) => id in rc.transfers
    case Discarding(id) => id in rc.transfers
  }

  /** The digest of `h` is the one INIT declared and, while the file is still
      this transfer's, `h` is all of it. */
  ghost predicate VerifiedOk(w: World, r: Rid, id: Id, h: seq<byte>)
    requires r in w.recv
  {
    && Has(w.recv, r, id) && X(w.recv, r, id).buf.cursor == X(w.recv, r, id).buf.size
    && w.sha(h) == X(w.recv, r, id).hash
    && (Protected(w, r, id) ==> X(w.recv, r, id).file in w.data && h == w.data[X(w.recv, r, id).file])
  }

  ghost predicate Pcs(w: World) {
    forall r :: r in w.recv ==> PcOk(w, r)
  }

  /** No claim, no handed-over claim and no private name has two owners. */
  ghost predicate Unique(rs: Receivers) {
    && (forall r, id, r', id' :: Has(rs, r, id) && Has(rs, r', id') && X(rs, r, id).claim == X(rs, r', id').claim
          ==> r == r' && id == id')
    && (forall r, id, q :: Has(rs, r, id) ==> !Claimer(rs, q, X(rs, r, id).claim))
    && (forall r, q, tok :: Claimer(rs, r, tok) && Claimer(rs, q, tok) ==> r == q)
    && (forall r, q, tok :: Prev(rs, r, tok) && Prev(rs, q, tok) ==> r == q)
    && (forall r, q, p :: Picked(rs, r, p) && Picked(rs, q, p) ==> r == q)
  }

  ghost predicate Prev(rs: Receivers, r: Rid, tok: Token) {
    r in rs && rs[r].pc.Claimed? && !rs[r].pc.prior && rs[r].pc.prev == Some(tok)
  }

  ghost predicate Picked(rs: Receivers, r: Rid, p: Path) {
    r in rs && rs[r].pc.Checked? && p.Private? && rs[r].pc.job.partial == p
  }

  ghost predicate HasOwner(rs: Receivers, tok: Token) {
    || (exists r, id :: Has(rs, r, id) && X(rs, r, id).claim == tok)
    || (exists r :: Claimer(rs, r, tok))
  }

  /** A claim in the table belongs to a transfer or to an INIT in progress;
      one left behind by neither is stale, so anyone may take it over. */
  ghost predicate Owned(w: World) {
    forall p :: p in w.claims ==> HasOwner(w.recv, w.claims[p]) || !Live(w, w.claims[p])
  }

  /** The receiver is done with the file of `id` and is about to release it. */
  ghost predicate Leaving(pc: Pc, id: Id) {
    (pc.Renamed? || pc.Discarding?) && pc.id == id
  }

  /** A protected transfer's handle is the file at its path, and reaches its cursor. */
  ghost predicate GuardedOne(w: World, r: Rid, id: Id)
    requires Has(w.recv, r, id)
  {
    var t := X(w.recv, r, id);
    Protected(w, r, id) && !Leaving(w.recv[r].pc, id) ==>
      && t.partial in w.dir && w.dir[t.partial] == t.file
      && t.file in w.data && t.buf.cursor <= |w.data[t.file]|
  }

  ghost predicate Guarded(w: World) {
    forall r, id :: Has(w.recv, r, id) ==> GuardedOne(w, r, id)
  }

  /** Every file installed is still exactly the bytes that were verified. */
  ghost predicate SavedOk(w: World) {
    forall f :: f in w.saved ==>
      && f.Final? && f in w.dir && w.dir[f] in w.data
      && w.data[w.dir[f]] == w.saved[f].bytes && w.sha(w.saved[f].bytes) == w.saved[f].hash
  }

  ghost predicate Capacity(w: World) {
    forall r :: r in w.recv ==> |w.recv[r].transfers| <= MAX_TRANSFERS
  }

  ghost predicate Inv(w: World) {
    && Tables(w) && Files(w) && Transfers(w) && Pcs(w) && Unique(w.recv)
    && Owned(w) && Guarded(w) && SavedOk(w) && Capacity(w)
  }

  lemma InitialInv(w: World)
    requires Initial(w)
    ensures Inv(w)
  {
  }

  // ---- consequences ------------------------------------------------------

  /** At most one transfer in the whole process is protected on a path. */
  lemma Exclusive(w: World, r: Rid, id: Id, r': Rid, id': Id)
    requires Inv(w) && Has(w.recv, r, id) && Has(w.recv, r', id')
    requires Protected(w, r, id) && Protected(w, r', id')
    requires X(w.recv, r, id).partial == X(w.recv, r', id').partial
    ensures r == r' && id == id'
  {
    var t, t' := X(w.recv, r, id), X(w.recv, r', id');
    if !Holds(w, t.partial, t.claim) {
      var q :| Suspends(w, q, t.claim);
      assert PcOk(w, q) && Claimer(w.recv, q, w.recv[q].pc.token);
      if !Holds(w, t'.partial, t'.claim) {
        var q' :| Suspends(w, q', t'.claim);
        assert PcOk(w, q') && Claimer(w.recv, q', w.recv[q'].pc.token);
        assert q == q';
      }
    } else if !Holds(w, t'.partial, t'.claim) {
      var q' :| Suspends(w, q', t'.claim);
      assert PcOk(w, q') && Claimer(w.recv, q', w.recv[q'].pc.token);
    }
  }

  // ---- frames ------------------------------------------------------------

  /** Ownership in rs' is ownership in rs, or less of it. */
  ghost predicate OwnsNoMore(rs: Receivers, rs': Receivers) {
    && (forall r, id :: Has(rs', r, id) ==> Has(rs, r, id) && X(rs', r, id).claim == X(rs, r, id).claim)
    && (forall r, tok :: Claimer(rs', r, tok) ==> Claimer(rs, r, tok))
    && (forall r, tok :: Prev(rs', r, tok) ==> Prev(rs, r, tok))
    && (forall r, p :: Picked(rs', r, p) ==> Picked(rs, r, p))
  }

  lemma UniqueLess(rs: Receivers, rs': Receivers)
    requires Unique(rs) && OwnsNoMore(rs, rs')
    ensures Unique(rs')
  {
  }

  lemma OwnerStays(rs: Receivers, rs': Receivers, tok: Token)
    requires HasOwner(rs, tok)
    requires forall r, id :: Has(rs, r, id) && X(rs, r, id).claim == tok
               ==> Has(rs', r, id) && X(rs', r, id).claim == tok
    requires forall r :: Claimer(rs, r, tok) ==> Claimer(rs', r, tok)
    ensures HasOwner(rs', tok)
  {
  }

  ghost predicate SameBut<K, V>(m: map<K, V>, m': map<K, V>, k: K) {
    m'.Keys == m.Keys && forall j :: j in m && j != k ==> m'[j] == m[j]
  }

  /** A step of receiver r about its transfer id: at most the transfer's
      buffer, its program counter and, while it holds its claim, its lease and
      its file change. */
  ghost predicate Local(w: World, w': World, r: Rid, id: Id) {
    && Has(w.recv, r, id) && Has(w'.recv, r, id)
    && w' == w.(last := w'.last, data := w'.data, recv := w'.recv)
    && var t, t' := X(w.recv, r, id), X(w'.recv, r, id);
    && t' == t.(buf := t'.buf, hash := t'.hash)
    && w'.recv.Keys == w.recv.Keys && (forall q :: q in w.recv && q != r ==> w'.recv[q] == w.recv[q])
    && SameBut(w.recv[r].transfers, w'.recv[r].transfers, id)
    && (if Holds(w, t.partial, t.claim) && t.file in w.data
        then (w'.last == w.last || w'.last == w.last[t.claim := w.now]) && SameBut(w.data, w'.data, t.file)
        else w'.last == w.last && w'.data == w.data)
  }

  /** The frame being handled is about transfer `id`, which is registered. */
  ghost predicate About(pc: Pc, id: Id) {
    match pc
    case Idle => true
    case Checked(_) => false
    case Claimed(job, _, _, prior) => prior && job.id == id
    case _ => pc.id == id
  }

  ghost predicate LocalPre(w: World, w': World, r: Rid, id: Id) {
    && Inv(w) && Local(w, w', r, id)
    && About(w.recv[r].pc, id) && About(w'.recv[r].pc, id)
    && (w'.data == w.data || !Leaving(w.recv[r].pc, id))
  }

  lemma LocalSuspends(w: World, w': World, r: Rid, id: Id, q: Rid, tok: Token)
    requires LocalPre(w, w', r, id) && Suspends(w', q, tok)
    ensures Suspends(w, q, tok)
  {
    assert PcOk(w, q) && Claimer(w.recv, q, w.recv[q].pc.token);
  }

  lemma LocalProtected(w: World, w': World, r: Rid, id: Id, q: Rid, i: Id)
    requires LocalPre(w, w', r, id) && Has(w'.recv, q, i) && Protected(w', q, i)
    ensures Has(w.recv, q, i) && Protected(w, q, i)
  {
    if !Holds(w', X(w'.recv, q, i).partial, X(w'.recv, q, i).claim) {
      var s :| Suspends(w', s, X(w'.recv, q, i).claim);
      LocalSuspends(w, w', r, id, s, X(w'.recv, q, i).claim);
    }
  }

  /** No other protected transfer has the same file open. */
  lemma LocalFileApart(w: World, w': World, r: Rid, id: Id, q: Rid, i: Id)
    requires LocalPre(w, w', r, id) && Has(w'.recv, q, i) && (q, i) != (r, id) && Protected(w', q, i)
    requires !Leaving(w'.recv[q].pc, i)
    ensures X(w'.recv, q, i) == X(w.recv, q, i)
    ensures var f := X(w.recv, q, i).file; f in w.data && f in w'.data && w'.data[f] == w.data[f]
    ensures GuardedOne(w', q, i)
  {
    LocalProtected(w, w', r, id, q, i);
    assert GuardedOne(w, q, i) && GuardedOne(w, r, id) && TransferOk(w, q, i) && TransferOk(w, r, id);
    if w'.data != w.data && X(w.recv, q, i).file == X(w.recv, r, id).file {
      Exclusive(w, q, i, r, id);
    }
  }

  lemma LocalPcApart(w: World, w': World, r: Rid, id: Id, q: Rid)
    requires LocalPre(w, w', r, id) && q in w'.recv && q != r
    ensures PcOk(w', q)
  {
    assert PcOk(w, q) && TransferOk(w, r, id);
    var pc := w.recv[q].pc;
    match pc
    case Claimed(_, tok, _, prior) => assert !prior ==> Claimer(w.recv, q, tok);
    case Verifying(i, _) => if Protected(w', q, i) { LocalFileApart(w, w', r, id, q, i); LocalProtected(w, w', r, id, q, i); }
    case Verified(i, _) => if Protected(w', q, i) { LocalFileApart(w, w', r, id, q, i); LocalProtected(w, w', r, id, q, i); }
    case Prepared(i, _) => if Protected(w', q, i) { LocalFileApart(w, w', r, id, q, i); LocalProtected(w, w', r, id, q, i); }
    case _ =>
  }

  lemma LocalTransfers(w: World, w': World, r: Rid, id: Id)
    requires LocalPre(w, w', r, id) && GuardedOne(w', r, id)
    ensures Transfers(w') && Guarded(w')
  {
    assert TransferOk(w, r, id);
    forall q: Rid, i: Id | Has(w'.recv, q, i) ensures TransferOk(w', q, i) {
      assert TransferOk(w, q, i);
    }
    forall q: Rid, i: Id | Has(w'.recv, q, i) ensures GuardedOne(w', q, i) {
      if (q, i) != (r, id) && Protected(w', q, i) && !Leaving(w'.recv[q].pc, i) {
        LocalFileApart(w, w', r, id, q, i);
      }
    }
  }

  lemma LocalOwners(w: World, w': World, r: Rid, id: Id)
    requires LocalPre(w, w', r, id)
    ensures Unique(w'.recv) && Owned(w')
  {
    UniqueLess(w.recv, w'.recv);
    forall p | p in w'.claims ensures HasOwner(w'.recv, w'.claims[p]) || !Live(w', w'.claims[p]) {
      if HasOwner(w.recv, w.claims[p]) {
        OwnerStays(w.recv, w'.recv, w.claims[p]);
      } else {
        assert X(w.recv, r, id).claim != w.claims[p];
      }
    }
  }

  lemma LocalTables(w: World, w': World, r: Rid, id: Id)
    requires Tables(w) && Files(w) && Local(w, w', r, id) && TransferOk(w, r, id)
    ensures Tables(w') && Files(w')
  {
  }

  lemma LocalSaved(w: World, w': World, r: Rid, id: Id)
    requires LocalPre(w, w', r, id)
    ensures SavedOk(w')
  {
    assert GuardedOne(w, r, id) && TransferOk(w, r, id);
  }

  lemma LocalDisk(w: World, w': World, r: Rid, id: Id)
    requires LocalPre(w, w', r, id)
    ensures Tables(w') && Files(w') && SavedOk(w')
  {
    assert TransferOk(w, r, id);
    LocalTables(w, w', r, id);
    LocalSaved(w, w', r, id);
  }

  lemma LocalPcs(w: World, w': World, r: Rid, id: Id)
    requires LocalPre(w, w', r, id) && PcOk(w', r)
    ensures Pcs(w')
  {
    forall q | q in w'.recv ensures PcOk(w', q) {
      if q != r { LocalPcApart(w, w', r, id, q); }
    }
  }

  lemma LocalCapacity(w: World, w': World, r: Rid, id: Id)
    requires LocalPre(w, w', r, id)
    ensures Capacity(w')
  {
  }

  /** A local step of a transfer keeps the invariant if it does for that transfer. */
  lemma LocalInv(w: World, w': World, r: Rid, id: Id)
    requires LocalPre(w, w', r, id)
    requires PcOk(w', r) && GuardedOne(w', r, id)
    ensures Inv(w')
  {
    LocalTransfers(w, w', r, id);
    LocalOwners(w, w', r, id);
    LocalDisk(w, w', r, id);
    LocalPcs(w, w', r, id);
    LocalCapacity(w, w', r, id);
  }

  // ---- steps of a registered transfer ------------------------------------

  lemma WriteDenied(w: World, r: Rid, id: Id, b: Buf, bytes: seq<byte>, out: Outcome)
    requires Has(w.recv, r, id) && !Holds(w, X(w.recv, r, id).partial, X(w.recv, r, id).claim)
    ensures var w' := Write(w, r, id, b, bytes, out); Local(w, w', r, id) && w'.recv[r].pc == Discarding(id)
  {
  }

  lemma WriteAllowed(w: World, r: Rid, id: Id, b: Buf, bytes: seq<byte>, out: Outcome)
    requires Has(w.recv, r, id) && X(w.recv, r, id).file in w.data
    requires b.cursor == X(w.recv, r, id).buf.cursor && Holds(w, X(w.recv, r, id).partial, X(w.recv, r, id).claim)
    ensures var w', t := Write(w, r, id, b, bytes, out), X(w.recv, r, id);
            && Local(w, w', r, id) && w'.recv[r].pc in {Draining(id), Abandoning(id), Idle}
            && (t.buf.cursor <= |w.data[t.file]| ==> X(w'.recv, r, id).buf.cursor <= |w'.data[t.file]|)
  {
  }

  lemma WriteInv(w: World, r: Rid, id: Id, b: Buf, bytes: seq<byte>, out: Outcome)
    requires Inv(w) && Has(w.recv, r, id)
    requires w.recv[r].pc.Idle? || w.recv[r].pc == Draining(id)
    requires b.cursor == X(w.recv, r, id).buf.cursor
    ensures Inv(Write(w, r, id, b, bytes, out))
  {
    var t, w' := X(w.recv, r, id), Write(w, r, id, b, bytes, out);
    assert TransferOk(w, r, id) && GuardedOne(w, r, id);
    if Holds(w, t.partial, t.claim) { WriteAllowed(w, r, id, b, bytes, out); }
    else { WriteDenied(w, r, id, b, bytes, out); }
    assert LocalPre(w, w', r, id);
    LocalInv(w, w', r, id);
  }

  lemma ChunkInv(w: World, s: Step)
    requires Inv(w) && Enabled(w, s) && (s.ChunkIn? || s.DrainOne?)
    ensures Inv(Next(w, s))
  {
    var id := if s.ChunkIn? then s.id else w.recv[s.r].pc.id;
    if Has(w.recv, s.r, id) {
      var t := X(w.recv, s.r, id);
      assert PcOk(w, s.r) && GuardedOne(w, s.r, id);
      if s.ChunkIn? && s.off == t.buf.cursor {
        WriteInv(w, s.r, id, t.buf, s.bytes, s.out);
      } else if s.DrainOne? && t.buf.cursor in t.buf.pending {
        WriteInv(w, s.r, id, TakeNext(t.buf), t.buf.pending[t.buf.cursor], s.out);
      } else if Next(w, s) != w {
        LocalStays(w, Next(w, s), s.r, id);
      }
    } else {
      assert PcOk(w, s.r);
    }
  }

  /** A local step that leaves files and leases alone and ends idle. */
  lemma LocalStays(w: World, w': World, r: Rid, id: Id)
    requires LocalPre(w, w', r, id) && w'.data == w.data && w'.last == w.last
    requires w'.recv[r].pc.Idle? && !Leaving(w.recv[r].pc, id)
    requires X(w'.recv, r, id).buf.cursor == X(w.recv, r, id).buf.cursor
    ensures Inv(w')
  {
    if Protected(w', r, id) { LocalProtected(w, w', r, id, r, id); }
    assert GuardedOne(w, r, id);
    LocalInv(w, w', r, id);
  }

  lemma DoneInv(w: World, r: Rid, id: Id, syncOk: bool)
    requires Inv(w) && r in w.recv && w.recv[r].pc.Idle?
    ensures Inv(AfterDone(w, r, id, syncOk))
  {
    if Has(w.recv, r, id) {
      var w' := AfterDone(w, r, id, syncOk);
      assert TransferOk(w, r, id) && GuardedOne(w, r, id);
      assert LocalPre(w, w', r, id);
      LocalInv(w, w', r, id);
    }
  }

  lemma HashReadEffect(w: World, r: Rid, n: nat, readOk: bool)
    requires r in w.recv && w.recv[r].pc.Verifying? && Has(w.recv, r, w.recv[r].pc.id)
    requires var t := X(w.recv, r, w.recv[r].pc.id);
             t.file in w.data && t.buf.cursor == t.buf.size
             && (Holds(w, t.partial, t.claim) ==> w.recv[r].pc.hashed <= w.data[t.file])
    ensures var w', id := AfterHashRead(w, r, n, readOk), w.recv[r].pc.id;
            && Local(w, w', r, id) && About(w'.recv[r].pc, id) && w'.data == w.data
            && X(w'.recv, r, id) == X(w.recv, r, id)
            && PcOk(w', r)
  {
  }

  lemma HashReadInv(w: World, r: Rid, n: nat, readOk: bool)
    requires Inv(w) && r in w.recv && w.recv[r].pc.Verifying? && Has(w.recv, r, w.recv[r].pc.id)
    ensures Inv(AfterHashRead(w, r, n, readOk))
  {
    var w', id := AfterHashRead(w, r, n, readOk), w.recv[r].pc.id;
    assert TransferOk(w, r, id) && GuardedOne(w, r, id) && PcOk(w, r);
    HashReadEffect(w, r, n, readOk);
    if Protected(w', r, id) { LocalProtected(w, w', r, id, r, id); }
    LocalInv(w, w', r, id);
  }

  lemma PrepareInv(w: World, r: Rid, ok: bool)
    requires Inv(w) && r in w.recv && w.recv[r].pc.Verified?
    ensures Inv(Next(w, Step.Prepare(r, ok)))
  {
    var w', id := Next(w, Step.Prepare(r, ok)), w.recv[r].pc.id;
    assert PcOk(w, r) && GuardedOne(w, r, id) && TransferOk(w, r, id);
    assert LocalPre(w, w', r, id);
    if Protected(w', r, id) { LocalProtected(w, w', r, id, r, id); }
    LocalInv(w, w', r, id);
  }
}
