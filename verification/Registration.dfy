/**
 * INIT's last step (hand the claim back, or open, truncate and register) and
 * DONE's last steps (rename into place, commit), and with them the invariant
 * over whole runs.
 */
module Registration {
  import opened Prelude
  import opened Reassembly
  import opened Admission
  import opened Receivers
  import opened Custody
  import opened Ownership

  // ---- an INIT refused after its claim -----------------------------------

  /** Receiver r hands its live claim on p back to whom it was taken from. */
  ghost predicate HandsBack(w: World, w': World, r: Rid, p: Path, tok: Token, prev: Option<Token>) {
    && Claimer(w.recv, r, tok) && w.recv[r].pc.prev == prev && w.recv[r].pc.job.partial == p
    && ClaimedOk(w, r) && Live(w, tok) && Holds(w, p, tok)
    && w' == w.(claims := w'.claims, dir := w'.dir, recv := w.recv[r := w.recv[r].(pc := Idle)])
    && w'.claims == (if prev.Some? then w.claims[p := prev.value] else w.claims - {p})
    && w'.dir == (if p.Private? then w.dir - {p} else w.dir)
  }

  lemma HandsBackProtected(w: World, w': World, r: Rid, p: Path, tok: Token, prev: Option<Token>, q: Rid, i: Id)
    requires Inv(w) && HandsBack(w, w', r, p, tok, prev) && Has(w'.recv, q, i) && Protected(w', q, i)
    ensures Has(w.recv, q, i) && X(w'.recv, q, i) == X(w.recv, q, i) && Protected(w, q, i)
    ensures p.Private? ==> X(w.recv, q, i).partial != p
  {
    var t := X(w.recv, q, i);
    assert TransferOk(w, q, i);
    if Holds(w', t.partial, t.claim) {
      if !Holds(w, t.partial, t.claim) { assert Suspends(w, r, t.claim); }
    } else {
      var s :| Suspends(w', s, t.claim);
      assert PcOk(w, s) && Claimer(w.recv, s, w.recv[s].pc.token);
      assert Suspends(w, s, t.claim);
    }
  }

  lemma HandsBackTransfer(w: World, w': World, r: Rid, p: Path, tok: Token, prev: Option<Token>, q: Rid, i: Id)
    requires HandsBack(w, w', r, p, tok, prev) && Has(w.recv, q, i) && Has(w'.recv, q, i)
    requires TransferOk(w, q, i) && X(w'.recv, q, i) == X(w.recv, q, i) && X(w.recv, q, i).claim != tok
    ensures TransferOk(w', q, i)
  {
  }

  lemma HandsBackTransfers(w: World, w': World, r: Rid, p: Path, tok: Token, prev: Option<Token>)
    requires Transfers(w) && Unique(w.recv) && HandsBack(w, w', r, p, tok, prev)
    ensures Transfers(w')
  {
    forall q: Rid, i: Id | Has(w'.recv, q, i) ensures TransferOk(w', q, i) {
      assert Has(w.recv, q, i) && TransferOk(w, q, i) && Claimer(w.recv, r, tok);
      HandsBackTransfer(w, w', r, p, tok, prev, q, i);
    }
  }

  lemma HandsBackGuarded(w: World, w': World, r: Rid, p: Path, tok: Token, prev: Option<Token>, q: Rid, i: Id)
    requires Inv(w) && HandsBack(w, w', r, p, tok, prev) && Has(w'.recv, q, i)
    ensures GuardedOne(w', q, i)
  {
    if Protected(w', q, i) {
      HandsBackProtected(w, w', r, p, tok, prev, q, i);
      assert GuardedOne(w, q, i);
    }
  }

  lemma HandsBackOther(w: World, w': World, r: Rid, p: Path, tok: Token, prev: Option<Token>, q: Rid)
    requires HandsBack(w, w', r, p, tok, prev) && q in w.recv && q != r && w.recv[q].pc.Claimed? && ClaimedOk(w, q)
    requires !w.recv[q].pc.prior ==> w.recv[q].pc.token != tok && (prev.Some? ==> w.recv[q].pc.prev != prev)
    ensures q in w'.recv && w'.recv[q].pc.Claimed? && ClaimedOk(w', q)
  {
    var pq := w.recv[q].pc;
    assert w'.recv[q] == w.recv[q] && w'.home == w.home && w'.last == w.last && w'.now == w.now;
    assert Holds(w, pq.job.partial, pq.token) && pq.token != tok ==> pq.job.partial != p;
  }

  lemma HandsBackClaimed(w: World, w': World, r: Rid, p: Path, tok: Token, prev: Option<Token>, q: Rid)
    requires Pcs(w) && Unique(w.recv) && HandsBack(w, w', r, p, tok, prev) && q in w'.recv && w'.recv[q].pc.Claimed?
    ensures ClaimedOk(w', q)
  {
    var pq := w.recv[q].pc;
    assert PcOk(w, q);
    assert !pq.prior ==> Claimer(w.recv, q, pq.token);
    assert prev.Some? ==> Prev(w.recv, r, prev.value);
    assert !pq.prior && pq.prev.Some? ==> Prev(w.recv, q, pq.prev.value);
    HandsBackOther(w, w', r, p, tok, prev, q);
  }

  lemma HandsBackPc(w: World, w': World, r: Rid, p: Path, tok: Token, prev: Option<Token>, q: Rid)
    requires Inv(w) && HandsBack(w, w', r, p, tok, prev) && q in w'.recv
    ensures PcOk(w', q)
  {
    assert PcOk(w, q);
    var pc := w'.recv[q].pc;
    if pc.Claimed? { HandsBackClaimed(w, w', r, p, tok, prev, q); }
    else if pc.Verifying? || pc.Verified? || pc.Prepared? {
      if Protected(w', q, pc.id) { HandsBackProtected(w, w', r, p, tok, prev, q, pc.id); }
    }
  }

  lemma IdleUnique(rs: Receivers, rs': Receivers, r: Rid)
    requires Unique(rs) && r in rs && rs' == rs[r := rs[r].(pc := Idle)]
    ensures Unique(rs')
  {
    UniqueLess(rs, rs');
  }

  lemma HandsBackOwners(w: World, w': World, r: Rid, p: Path, tok: Token, prev: Option<Token>)
    requires Tables(w) && Unique(w.recv) && Owned(w) && HandsBack(w, w', r, p, tok, prev)
    ensures Owned(w')
  {
    forall c | c in w'.claims ensures HasOwner(w'.recv, w'.claims[c]) || !Live(w', w'.claims[c]) {
      if c != p && HasOwner(w.recv, w.claims[c]) {
        assert w.claims[c] != tok;
        OwnerStays(w.recv, w'.recv, w.claims[c]);
      }
    }
  }

  lemma HandsBackDisk(w: World, w': World, r: Rid, p: Path, tok: Token, prev: Option<Token>)
    requires Tables(w) && Files(w) && SavedOk(w) && Capacity(w) && HandsBack(w, w', r, p, tok, prev)
    ensures Tables(w') && Files(w') && SavedOk(w') && Capacity(w')
  {
  }

  lemma HandsBackInv(w: World, w': World, r: Rid, p: Path, tok: Token, prev: Option<Token>)
    requires Inv(w) && HandsBack(w, w', r, p, tok, prev)
    ensures Inv(w')
  {
    HandsBackTransfers(w, w', r, p, tok, prev);
    forall q: Rid, i: Id | Has(w'.recv, q, i) ensures GuardedOne(w', q, i) {
      HandsBackGuarded(w, w', r, p, tok, prev, q, i);
    }
    IdleUnique(w.recv, w'.recv, r);
    HandsBackOwners(w, w', r, p, tok, prev);
    HandsBackDisk(w, w', r, p, tok, prev);
    forall q | q in w'.recv ensures PcOk(w', q) { HandsBackPc(w, w', r, p, tok, prev, q); }
  }

  lemma FailInv(w: World, r: Rid)
    requires Inv(w) && r in w.recv && w.recv[r].pc.Claimed? && Live(w, w.recv[r].pc.token)
    ensures Inv(FailInit(w, r))
  {
    var w', pc := FailInit(w, r), w.recv[r].pc;
    assert PcOk(w, r);
    if pc.prior {
      LocalStays(w, w', r, pc.job.id);
    } else {
      HandsBackInv(w, w', r, pc.job.partial, pc.token, pc.prev);
    }
  }

  // ---- opening and registering -------------------------------------------

  lemma OpenFiles(w: World, p: Path)
    requires Files(w) && Numbered(w, p)
    ensures Files(OpenFile(w, p))
  {
  }

  lemma OpenSaved(w: World, p: Path)
    requires Files(w) && SavedOk(w) && !p.Final?
    ensures SavedOk(OpenFile(w, p))
  {
  }

  lemma OpenInert(w: World, p: Path, tok: Token)
    requires Files(w) && tok in w.home && w.home[tok] == p
    ensures Inert(w, OpenFile(w, p))
  {
  }

  /** Creating the file at a path that has been claimed. */
  lemma OpenInv(w: World, p: Path, tok: Token)
    requires Inv(w) && tok in w.home && w.home[tok] == p
    ensures Inv(OpenFile(w, p)) && p in OpenFile(w, p).dir
  {
    OpenFiles(w, p);
    OpenSaved(w, p);
    OpenInert(w, p, tok);
    InertInv(w, OpenFile(w, p));
  }

  /** Receiver r registers the transfer its claim was taken for; the file at
      its path is kept or emptied. */
  ghost predicate Registers(w: World, w': World, r: Rid, tok: Token) {
    && Claimer(w.recv, r, tok) && ClaimedOk(w, r) && Live(w, tok)
    && var job := w.recv[r].pc.job;
    && job.partial in w.dir && Has(w'.recv, r, job.id)
    && var t := X(w'.recv, r, job.id);
    && t.partial == job.partial && t.claim == tok && t.file == w.dir[job.partial]
    && t.file in w'.data && t.buf.cursor <= |w'.data[t.file]|
    && SameBut(w.data, w'.data, t.file)
    && w' == w.(data := w'.data, recv := w.recv[r := Receiver(w.recv[r].transfers[job.id := t], Idle)])
  }

  lemma RegistersProtected(w: World, w': World, r: Rid, tok: Token, q: Rid, i: Id)
    requires Inv(w) && Registers(w, w', r, tok) && (q, i) != (r, w.recv[r].pc.job.id)
    requires Has(w'.recv, q, i) && Protected(w', q, i) && !Leaving(w'.recv[q].pc, i)
    ensures Has(w.recv, q, i) && X(w'.recv, q, i) == X(w.recv, q, i) && Protected(w, q, i)
    ensures var f := X(w.recv, q, i).file; f in w.data && w'.data[f] == w.data[f]
    ensures GuardedOne(w', q, i)
  {
    var t := X(w.recv, q, i);
    assert TransferOk(w, q, i) && GuardedOne(w, q, i);
    if !Holds(w', t.partial, t.claim) {
      var s :| Suspends(w', s, t.claim);
      assert s != r && Suspends(w, s, t.claim);
      assert PcOk(w, s) && Claimer(w.recv, s, w.recv[s].pc.token);
    }
    assert t.partial != w.recv[r].pc.job.partial;
  }

  lemma RegistersTransfers(w: World, w': World, r: Rid, tok: Token)
    requires Inv(w) && Registers(w, w', r, tok)
    ensures Transfers(w') && Guarded(w')
  {
    forall q: Rid, i: Id | Has(w'.recv, q, i) ensures TransferOk(w', q, i) {
      if (q, i) != (r, w.recv[r].pc.job.id) { assert TransferOk(w, q, i); }
    }
    forall q: Rid, i: Id | Has(w'.recv, q, i) ensures GuardedOne(w', q, i) {
      if (q, i) != (r, w.recv[r].pc.job.id) && Protected(w', q, i) && !Leaving(w'.recv[q].pc, i) {
        RegistersProtected(w, w', r, tok, q, i);
      }
    }
  }

  lemma RegistersPc(w: World, w': World, r: Rid, tok: Token, q: Rid)
    requires Inv(w) && Registers(w, w', r, tok) && q in w'.recv
    ensures PcOk(w', q)
  {
    assert PcOk(w, q);
    match w'.recv[q].pc
    case Verifying(i, _) => if Protected(w', q, i) { RegistersProtected(w, w', r, tok, q, i); }
    case Verified(i, _) => if Protected(w', q, i) { RegistersProtected(w, w', r, tok, q, i); }
    case Prepared(i, _) => if Protected(w', q, i) { RegistersProtected(w, w', r, tok, q, i); }
    case _ =>
  }

  lemma RegistersUnique(rs: Receivers, rs': Receivers, r: Rid, tok: Token, id: Id, t: Transfer)
    requires Unique(rs) && Claimer(rs, r, tok) && t.claim == tok
    requires rs' == rs[r := Receiver(rs[r].transfers[id := t], Idle)] && id !in rs[r].transfers
    ensures Unique(rs')
  {
    forall q, i | Has(rs', q, i) && !(q == r && i == id) ensures X(rs', q, i).claim != tok {
      assert Has(rs, q, i);
    }
    forall q, c | Claimer(rs', q, c) ensures Claimer(rs, q, c) && c != tok {
      assert Claimer(rs, q, c) && Claimer(rs, r, tok);
    }
    forall q, i, s | Has(rs', q, i) ensures !Claimer(rs', s, X(rs', q, i).claim) {
      if Claimer(rs', s, X(rs', q, i).claim) { assert Claimer(rs, s, X(rs', q, i).claim) && Has(rs, q, i); }
    }
    forall q, c | Prev(rs', q, c) ensures Prev(rs, q, c) {}
    forall q, p | Picked(rs', q, p) ensures Picked(rs, q, p) {}
    forall q, i, q', i' | Has(rs', q, i) && Has(rs', q', i') && X(rs', q, i).claim == X(rs', q', i').claim
      ensures q == q' && i == i'
    {
      if X(rs', q, i).claim != tok { assert Has(rs, q, i) && Has(rs, q', i'); }
    }
  }

  lemma RegistersOwned(w: World, w': World, r: Rid, tok: Token)
    requires Inv(w) && Registers(w, w', r, tok)
    ensures Owned(w')
  {
    assert Has(w'.recv, r, w.recv[r].pc.job.id);
    forall c | c in w'.claims ensures HasOwner(w'.recv, w'.claims[c]) || !Live(w', w'.claims[c]) {
      if w.claims[c] != tok && HasOwner(w.recv, w.claims[c]) {
        OwnerStays(w.recv, w'.recv, w.claims[c]);
      }
    }
  }

  lemma RegistersDisk(w: World, w': World, r: Rid, tok: Token)
    requires Tables(w) && Files(w) && SavedOk(w) && Capacity(w) && Registers(w, w', r, tok)
    ensures Files(w') && SavedOk(w') && Capacity(w') && Tables(w')
  {
    var job := w.recv[r].pc.job;
    FewerTransfers(w'.recv[r].transfers, job.id);
    assert w'.recv[r].transfers - {job.id} == w.recv[r].transfers;
  }

  lemma RegistersInv(w: World, w': World, r: Rid, tok: Token)
    requires Inv(w) && Registers(w, w', r, tok)
    ensures Inv(w')
  {
    var job := w.recv[r].pc.job;
    RegistersTransfers(w, w', r, tok);
    RegistersUnique(w.recv, w'.recv, r, tok, job.id, X(w'.recv, r, job.id));
    RegistersOwned(w, w', r, tok);
    RegistersDisk(w, w', r, tok);
    forall q | q in w'.recv ensures PcOk(w', q) { RegistersPc(w, w', r, tok, q); }
  }

  lemma InitFinishInv(w: World, r: Rid, openOk: bool, statOk: bool, truncOk: bool)
    requires Inv(w) && r in w.recv && w.recv[r].pc.Claimed? && Live(w, w.recv[r].pc.token)
    ensures Inv(AfterInitFinish(w, r, openOk, statOk, truncOk))
  {
    var pc := w.recv[r].pc;
    assert PcOk(w, r);
    if !openOk {
      FailInv(w, r);
    } else {
      OpenInv(w, pc.job.partial, pc.token);
      RegisterInv(OpenFile(w, pc.job.partial), r, statOk, truncOk);
    }
  }

  lemma RegisterInv(w: World, r: Rid, statOk: bool, truncOk: bool)
    requires Inv(w) && r in w.recv && w.recv[r].pc.Claimed? && Live(w, w.recv[r].pc.token)
    requires w.recv[r].pc.job.partial in w.dir
    ensures Inv(Register(w, r, statOk, truncOk))
  {
    var w', pc := Register(w, r, statOk, truncOk), w.recv[r].pc;
    assert PcOk(w, r);
    if pc.prior {
      var id := pc.job.id;
      assert TransferOk(w, r, id) && GuardedOne(w, r, id);
      assert LocalPre(w, w', r, id);
      LocalInv(w, w', r, id);
    } else {
      RegistersInv(w, w', r, pc.token);
    }
  }

  // ---- rename into place and commit --------------------------------------

  /** Receiver r, holding its claim, moves its file to a final name. */
  ghost predicate Installs(w: World, w': World, r: Rid, id: Id, h: seq<byte>, f: Path) {
    && Has(w.recv, r, id) && w.recv[r].pc == Prepared(id, h) && VerifiedOk(w, r, id, h)
    && var t := X(w.recv, r, id);
    && Holds(w, t.partial, t.claim) && t.partial in w.dir && w.dir[t.partial] == t.file
    && f == Final(w.nextName)
    && w' == w.(last := w.last[t.claim := w.now],
                dir := (w.dir - {t.partial})[f := w.dir[t.partial]],
                saved := w.saved[f := Saved(h, t.hash, id)],
                nextName := w.nextName + 1,
                recv := w.recv[r := w.recv[r].(pc := Renamed(id, f))])
  }

  lemma InstallsProtected(w: World, w': World, r: Rid, id: Id, h: seq<byte>, f: Path, q: Rid, i: Id)
    requires Inv(w) && Installs(w, w', r, id, h, f) && (q, i) != (r, id)
    requires Has(w'.recv, q, i) && Protected(w', q, i)
    ensures Has(w.recv, q, i) && X(w'.recv, q, i) == X(w.recv, q, i) && Protected(w, q, i)
    ensures X(w.recv, q, i).partial != X(w.recv, r, id).partial
  {
    var t := X(w.recv, q, i);
    assert TransferOk(w, q, i) && TransferOk(w, r, id);
    if !Holds(w', t.partial, t.claim) {
      var s :| Suspends(w', s, t.claim);
      assert PcOk(w, s) && Claimer(w.recv, s, w.recv[s].pc.token);
      assert Suspends(w, s, t.claim);
    }
    if t.partial == X(w.recv, r, id).partial { Exclusive(w, q, i, r, id); }
  }

  lemma InstallsTransfers(w: World, w': World, r: Rid, id: Id, h: seq<byte>, f: Path)
    requires Inv(w) && Installs(w, w', r, id, h, f)
    ensures Transfers(w') && Guarded(w')
  {
    assert TransferOk(w, r, id);
    forall q: Rid, i: Id | Has(w'.recv, q, i) ensures TransferOk(w', q, i) {
      assert TransferOk(w, q, i);
    }
    forall q: Rid, i: Id | Has(w'.recv, q, i) ensures GuardedOne(w', q, i) {
      if (q, i) != (r, id) && Protected(w', q, i) {
        InstallsProtected(w, w', r, id, h, f, q, i);
        assert GuardedOne(w, q, i) && TransferOk(w, q, i);
      }
    }
  }

  lemma InstallsPc(w: World, w': World, r: Rid, id: Id, h: seq<byte>, f: Path, q: Rid)
    requires Inv(w) && Installs(w, w', r, id, h, f) && q in w'.recv
    ensures PcOk(w', q)
  {
    assert PcOk(w, q) && TransferOk(w, r, id);
    match w'.recv[q].pc
    case Claimed(_, tok, _, prior) => assert !prior ==> Claimer(w.recv, q, tok);
    case Verifying(i, _) => if Protected(w', q, i) { InstallsProtected(w, w', r, id, h, f, q, i); }
    case Verified(i, _) => if Protected(w', q, i) { InstallsProtected(w, w', r, id, h, f, q, i); }
    case Prepared(i, _) => if Protected(w', q, i) { InstallsProtected(w, w', r, id, h, f, q, i); }
    case _ =>
  }

  lemma InstallsOwners(w: World, w': World, r: Rid, id: Id, h: seq<byte>, f: Path)
    requires Unique(w.recv) && Owned(w) && Installs(w, w', r, id, h, f)
    ensures Unique(w'.recv) && Owned(w')
  {
    UniqueLess(w.recv, w'.recv);
    assert Has(w'.recv, r, id);
    forall c | c in w'.claims ensures HasOwner(w'.recv, w'.claims[c]) || !Live(w', w'.claims[c]) {
      if HasOwner(w.recv, w.claims[c]) {
        OwnerStays(w.recv, w'.recv, w.claims[c]);
      }
    }
  }

  lemma InstallsFiles(w: World, w': World, r: Rid, id: Id, h: seq<byte>, f: Path)
    requires Tables(w) && Files(w) && Installs(w, w', r, id, h, f)
    ensures Tables(w') && Files(w') && f !in w.dir
  {
  }

  lemma InstallsSaved(w: World, w': World, r: Rid, id: Id, h: seq<byte>, f: Path)
    requires Inv(w) && Installs(w, w', r, id, h, f) && f !in w.dir
    ensures SavedOk(w') && Capacity(w')
  {
    assert TransferOk(w, r, id) && Protected(w, r, id);
    assert w'.dir[f] == X(w.recv, r, id).file;
    forall g | g in w'.saved
      ensures g.Final? && g in w'.dir && w'.dir[g] in w'.data && w'.data[w'.dir[g]] == w'.saved[g].bytes
      ensures w'.sha(w'.saved[g].bytes) == w'.saved[g].hash
    {
      if g != f { assert g in w.saved && g in w.dir; }
    }
  }

  lemma InstallsInv(w: World, w': World, r: Rid, id: Id, h: seq<byte>, f: Path)
    requires Inv(w) && Installs(w, w', r, id, h, f)
    ensures Inv(w')
  {
    InstallsTransfers(w, w', r, id, h, f);
    InstallsOwners(w, w', r, id, h, f);
    InstallsFiles(w, w', r, id, h, f);
    InstallsSaved(w, w', r, id, h, f);
    forall q | q in w'.recv ensures PcOk(w', q) { InstallsPc(w, w', r, id, h, f, q); }
  }

  lemma RenameInv(w: World, r: Rid, ok: bool)
    requires Inv(w) && r in w.recv && w.recv[r].pc.Prepared? && Has(w.recv, r, w.recv[r].pc.id)
    ensures Inv(AfterRename(w, r, ok))
  {
    var w', id, h := AfterRename(w, r, ok), w.recv[r].pc.id, w.recv[r].pc.hashed;
    var t := X(w.recv, r, id);
    assert PcOk(w, r) && TransferOk(w, r, id) && GuardedOne(w, r, id);
    if Holds(w, t.partial, t.claim) && ok {
      assert Protected(w, r, id);
      InstallsInv(w, w', r, id, h, Final(w.nextName));
    } else {
      assert LocalPre(w, w', r, id);
      LocalInv(w, w', r, id);
    }
  }

  /** A failed commit takes the installed file away again. */
  lemma UninstallInv(w: World, f: Path)
    requires Inv(w) && f.Final?
    ensures Inv(w.(dir := w.dir - {f}, saved := w.saved - {f}))
  {
    InertInv(w, w.(dir := w.dir - {f}, saved := w.saved - {f}));
  }

  lemma CommitInv(w: World, r: Rid, ok: bool, removeOk: bool)
    requires Inv(w) && r in w.recv && w.recv[r].pc.Renamed?
    ensures Inv(AfterCommit(w, r, ok, removeOk))
  {
    var pc := w.recv[r].pc;
    assert PcOk(w, r);
    var w1 := SetPc(w, r, Discarding(pc.id));
    assert LocalPre(w, w1, r, pc.id);
    LocalInv(w, w1, r, pc.id);
    if !ok && removeOk { UninstallInv(w1, pc.final); }
  }
}
