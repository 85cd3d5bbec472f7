/**
 * The steps that change who owns a .partial: a transfer ends, an INIT takes a
 * claim, registers or hands it back, and a verified file is renamed into place.
 */
module Ownership {
  import opened Prelude
  import opened Reassembly
  import opened Admission
  import opened Receivers
  import opened Custody

  // ---- time, names, new files --------------------------------------------

  /** Nobody's claims or transfers change: time passes, a name is used up, a
      final file goes, or an empty file appears at a claimed path. */
  ghost predicate Inert(w: World, w': World) {
    && w' == w.(now := w'.now, nextName := w'.nextName, nextInode := w'.nextInode,
                dir := w'.dir, data := w'.data, saved := w'.saved)
    && w'.now >= w.now && w'.nextName >= w.nextName
    && (forall p :: p in w.dir && !p.Final? ==> p in w'.dir && w'.dir[p] == w.dir[p])
    && (forall i :: i in w.data ==> i in w'.data && w'.data[i] == w.data[i])
    && (forall p :: p in w'.dir && p !in w.dir ==> exists tok :: tok in w.home && w.home[tok] == p)
  }

  lemma InertProtected(w: World, w': World, q: Rid, i: Id)
    requires Inert(w, w') && Has(w'.recv, q, i) && Protected(w', q, i)
    ensures Protected(w, q, i)
  {
    if !Holds(w', X(w'.recv, q, i).partial, X(w'.recv, q, i).claim) {
      var s :| Suspends(w', s, X(w'.recv, q, i).claim);
      assert Suspends(w, s, X(w'.recv, q, i).claim);
    }
  }

  lemma InertTransfers(w: World, w': World)
    requires Inv(w) && Inert(w, w')
    ensures Transfers(w') && Guarded(w')
  {
    forall q, i | Has(w'.recv, q, i) ensures TransferOk(w', q, i) && GuardedOne(w', q, i) {
      assert TransferOk(w, q, i) && GuardedOne(w, q, i);
      if Protected(w', q, i) { InertProtected(w, w', q, i); }
    }
  }

  lemma InertPc(w: World, w': World, q: Rid)
    requires Inv(w) && Inert(w, w') && q in w'.recv
    ensures PcOk(w', q)
  {
    assert PcOk(w, q);
    match w'.recv[q].pc
    case Verifying(i, _) => if Protected(w', q, i) { InertProtected(w, w', q, i); }
    case Verified(i, _) => if Protected(w', q, i) { InertProtected(w, w', q, i); }
    case Prepared(i, _) => if Protected(w', q, i) { InertProtected(w, w', q, i); }
    case _ =>
  }

  lemma InertTables(w: World, w': World)
    requires Inv(w) && Inert(w, w')
    ensures Tables(w') && Unique(w'.recv) && Owned(w') && Capacity(w')
  {
  }

  lemma InertInv(w: World, w': World)
    requires Inv(w) && Inert(w, w') && Files(w') && SavedOk(w')
    ensures Inv(w')
  {
    InertTransfers(w, w');
    InertTables(w, w');
    forall q | q in w'.recv ensures PcOk(w', q) { InertPc(w, w', q); }
  }

  /** Reserving a name nobody uses. */
  lemma NameInv(w: World)
    requires Inv(w)
    ensures Inv(TakeName(w))
    ensures forall id :: NeverClaimed(TakeName(w), Private(id, w.nextName))
  {
    InertInv(w, TakeName(w));
  }

  // ---- a transfer ends ---------------------------------------------------

  /** Transfer id of receiver r is gone; if it held its claim the claim went
      with it and at most its own directory entry did. */
  ghost predicate Gone(w: World, w': World, r: Rid, id: Id) {
    && Has(w.recv, r, id)
    && var t := X(w.recv, r, id);
    && w' == w.(claims := w'.claims, last := w'.last, dir := w'.dir,
                recv := w.recv[r := Receiver(w.recv[r].transfers - {id}, Idle)])
    && if Holds(w, t.partial, t.claim)
       then w'.claims == w.claims - {t.partial} && (w'.dir == w.dir || w'.dir == w.dir - {t.partial})
            && (w'.last == w.last || w'.last == w.last[t.claim := w.now])
       else w'.claims == w.claims && w'.dir == w.dir && w'.last == w.last
  }

  lemma GoneProtected(w: World, w': World, r: Rid, id: Id, q: Rid, i: Id)
    requires Inv(w) && Gone(w, w', r, id) && Has(w'.recv, q, i) && Protected(w', q, i)
    ensures Has(w.recv, q, i) && X(w'.recv, q, i) == X(w.recv, q, i) && Protected(w, q, i)
    ensures w'.dir != w.dir ==> X(w.recv, q, i).partial != X(w.recv, r, id).partial
  {
    assert TransferOk(w, q, i) && TransferOk(w, r, id);
    if !Holds(w', X(w'.recv, q, i).partial, X(w'.recv, q, i).claim) {
      var s :| Suspends(w', s, X(w'.recv, q, i).claim);
      assert PcOk(w, s) && Claimer(w.recv, s, w.recv[s].pc.token);
      assert Suspends(w, s, X(w'.recv, q, i).claim);
    }
    if w'.dir != w.dir && X(w.recv, q, i).partial == X(w.recv, r, id).partial {
      Exclusive(w, q, i, r, id);
    }
  }

  lemma GoneTransfers(w: World, w': World, r: Rid, id: Id)
    requires Inv(w) && Gone(w, w', r, id)
    ensures Transfers(w')
  {
    assert TransferOk(w, r, id);
    forall q: Rid, i: Id | Has(w'.recv, q, i) ensures TransferOk(w', q, i) {
      assert TransferOk(w, q, i);
    }
  }

  lemma GoneGuarded(w: World, w': World, r: Rid, id: Id)
    requires Inv(w) && Gone(w, w', r, id) && About(w.recv[r].pc, id)
    ensures Guarded(w')
  {
    forall q: Rid, i: Id | Has(w'.recv, q, i) ensures GuardedOne(w', q, i) {
      if Protected(w', q, i) {
        GoneProtected(w, w', r, id, q, i);
        assert GuardedOne(w, q, i);
      }
    }
  }

  lemma GonePcs(w: World, w': World, r: Rid, id: Id)
    requires Inv(w) && Gone(w, w', r, id)
    ensures Pcs(w')
  {
    assert TransferOk(w, r, id);
    forall q | q in w'.recv ensures PcOk(w', q) {
      if q != r {
        assert PcOk(w, q);
        match w.recv[q].pc
        case Claimed(_, tok, _, prior) =>
          if prior { assert Has(w.recv, q, w.recv[q].pc.job.id); } else { assert Claimer(w.recv, q, tok); }
        case Verifying(i, _) => if Protected(w', q, i) { GoneProtected(w, w', r, id, q, i); }
        case Verified(i, _) => if Protected(w', q, i) { GoneProtected(w, w', r, id, q, i); }
        case Prepared(i, _) => if Protected(w', q, i) { GoneProtected(w, w', r, id, q, i); }
        case _ =>
      }
    }
  }

  lemma GoneUnique(rs: Receivers, rs': Receivers, r: Rid, id: Id)
    requires Unique(rs) && r in rs && rs' == rs[r := Receiver(rs[r].transfers - {id}, Idle)]
    ensures Unique(rs')
  {
    UniqueLess(rs, rs');
  }

  lemma GoneOwners(w: World, w': World, r: Rid, id: Id)
    requires Tables(w) && Transfers(w) && Unique(w.recv) && Owned(w) && Gone(w, w', r, id) && About(w.recv[r].pc, id)
    ensures Owned(w')
  {
    var t := X(w.recv, r, id);
    assert TransferOk(w, r, id);
    forall p | p in w'.claims ensures HasOwner(w'.recv, w'.claims[p]) || !Live(w', w'.claims[p]) {
      assert w.claims[p] != t.claim;
      if HasOwner(w.recv, w.claims[p]) { OwnerStays(w.recv, w'.recv, w.claims[p]); }
    }
  }

  lemma FewerTransfers(m: map<Id, Transfer>, id: Id)
    requires id in m
    ensures |m - {id}| == |m| - 1
  {
  }

  lemma GoneDisk(w: World, w': World, r: Rid, id: Id)
    requires Tables(w) && Files(w) && SavedOk(w) && Capacity(w) && Gone(w, w', r, id) && TransferOk(w, r, id)
    ensures Tables(w') && Files(w') && SavedOk(w') && Capacity(w')
  {
    FewerTransfers(w.recv[r].transfers, id);
  }

  lemma GoneInv(w: World, w': World, r: Rid, id: Id)
    requires Inv(w) && Gone(w, w', r, id) && About(w.recv[r].pc, id)
    ensures Inv(w')
  {
    assert TransferOk(w, r, id);
    GoneTransfers(w, w', r, id);
    GoneGuarded(w, w', r, id);
    GonePcs(w, w', r, id);
    GoneUnique(w.recv, w'.recv, r, id);
    GoneOwners(w, w', r, id);
    GoneDisk(w, w', r, id);
  }

  lemma DiscardInv(w: World, r: Rid, id: Id)
    requires Inv(w) && Has(w.recv, r, id) && About(w.recv[r].pc, id)
    ensures Inv(Discard(w, r, id))
  {
    assert TransferOk(w, r, id);
    GoneInv(w, Discard(w, r, id), r, id);
  }

  lemma AbandonInv(w: World, r: Rid)
    requires Inv(w) && r in w.recv && w.recv[r].pc.Abandoning? && Has(w.recv, r, w.recv[r].pc.id)
    ensures Inv(AfterAbandon(w, r))
  {
    var id := w.recv[r].pc.id;
    var t := X(w.recv, r, id);
    assert TransferOk(w, r, id);
    assert w.dir - {t.partial} - {t.partial} == w.dir - {t.partial};
    GoneInv(w, AfterAbandon(w, r), r, id);
  }

  // ---- INIT: the checks --------------------------------------------------

  /** Ownership grows only by what receiver r now claims, may hand back or named. */
  lemma UniqueBut(rs: Receivers, rs': Receivers, r: Rid)
    requires Unique(rs)
    requires forall q, i :: Has(rs', q, i) ==> Has(rs, q, i) && X(rs', q, i).claim == X(rs, q, i).claim
    requires forall q, tok :: Claimer(rs', q, tok) ==>
               Claimer(rs, q, tok) || (q == r && (forall s :: !Claimer(rs, s, tok))
                                       && forall s, i :: Has(rs, s, i) ==> X(rs, s, i).claim != tok)
    requires forall q, tok :: Prev(rs', q, tok) ==> Prev(rs, q, tok) || (q == r && forall s :: !Prev(rs, s, tok))
    requires forall q, p :: Picked(rs', q, p) ==> Picked(rs, q, p) || (q == r && forall s :: !Picked(rs, s, p))
    ensures Unique(rs')
  {
  }

  /** Receiver r, holding no claim for the frame at hand, changes only where it is. */
  ghost predicate Quiet(w: World, w': World, r: Rid) {
    && r in w.recv && (w.recv[r].pc.Idle? || w.recv[r].pc.Checked?)
    && r in w'.recv && w' == SetPc(w, r, w'.recv[r].pc)
    && match w'.recv[r].pc
       case Idle => true
       case Checked(job) =>
         && job.id !in w.recv[r].transfers && |w.recv[r].transfers| < MAX_TRANSFERS
         && PartialFor(job.partial, job.id)
         && (job.partial.Private? ==>
               NeverClaimed(w, job.partial) && forall q :: !Picked(w.recv, q, job.partial))
       case _ => false
  }

  lemma QuietSuspends(w: World, w': World, r: Rid, q: Rid, tok: Token)
    requires Quiet(w, w', r) && Suspends(w', q, tok)
    ensures Suspends(w, q, tok)
  {
  }

  lemma QuietOwners(w: World, w': World, r: Rid)
    requires Inv(w) && Quiet(w, w', r)
    ensures Unique(w'.recv) && Owned(w')
  {
    UniqueBut(w.recv, w'.recv, r);
    forall p | p in w'.claims ensures HasOwner(w'.recv, w'.claims[p]) || !Live(w', w'.claims[p]) {
      if HasOwner(w.recv, w.claims[p]) { OwnerStays(w.recv, w'.recv, w.claims[p]); }
    }
  }

  lemma QuietProtected(w: World, w': World, r: Rid, q: Rid, i: Id)
    requires Quiet(w, w', r) && Has(w'.recv, q, i) && Protected(w', q, i)
    ensures Has(w.recv, q, i) && X(w'.recv, q, i) == X(w.recv, q, i) && Protected(w, q, i)
  {
    if !Holds(w', X(w'.recv, q, i).partial, X(w'.recv, q, i).claim) {
      var s :| Suspends(w', s, X(w'.recv, q, i).claim);
      QuietSuspends(w, w', r, s, X(w'.recv, q, i).claim);
    }
  }

  lemma QuietTransfers(w: World, w': World, r: Rid)
    requires Inv(w) && Quiet(w, w', r)
    ensures Transfers(w') && Guarded(w')
  {
    forall q, i | Has(w'.recv, q, i) ensures TransferOk(w', q, i) && GuardedOne(w', q, i) {
      assert TransferOk(w, q, i) && GuardedOne(w, q, i);
      if Protected(w', q, i) { QuietProtected(w, w', r, q, i); }
    }
  }

  lemma QuietPc(w: World, w': World, r: Rid, q: Rid)
    requires Inv(w) && Quiet(w, w', r) && q in w'.recv
    ensures PcOk(w', q)
  {
    assert PcOk(w, q);
    if q != r {
      match w.recv[q].pc
      case Verifying(i, _) => if Protected(w', q, i) { QuietProtected(w, w', r, q, i); }
      case Verified(i, _) => if Protected(w', q, i) { QuietProtected(w, w', r, q, i); }
      case Prepared(i, _) => if Protected(w', q, i) { QuietProtected(w, w', r, q, i); }
      case _ =>
    }
  }

  lemma QuietInv(w: World, w': World, r: Rid)
    requires Inv(w) && Quiet(w, w', r)
    ensures Inv(w')
  {
    QuietOwners(w, w', r);
    QuietTransfers(w, w', r);
    forall q | q in w'.recv ensures PcOk(w', q) { QuietPc(w, w', r, q); }
  }

  /** A repeated INIT of a transfer that still holds its file. */
  lemma RepeatInitInv(w: World, r: Rid, id: Id, size: nat, hash: Digest, lim: Limits)
    requires Inv(w) && Has(w.recv, r, id) && w.recv[r].pc.Idle?
    requires Holds(w, X(w.recv, r, id).partial, X(w.recv, r, id).claim)
    ensures Inv(AfterRepeatInit(w, r, id, size, hash, lim))
  {
    var w' := AfterRepeatInit(w, r, id, size, hash, lim);
    assert TransferOk(w, r, id) && GuardedOne(w, r, id);
    assert LocalPre(w, w', r, id);
    LocalInv(w, w', r, id);
  }

  lemma AdmitInv(w: World, r: Rid, id: Id, size: nat, hash: Digest, p: Path, lim: Limits)
    requires Inv(w) && r in w.recv && w.recv[r].pc.Idle? && id !in w.recv[r].transfers
    requires |w.recv[r].transfers| < MAX_TRANSFERS && PartialFor(p, id)
    requires p.Private? ==> NeverClaimed(w, p) && forall q :: !Picked(w.recv, q, p)
    ensures Inv(AfterAdmit(w, r, id, size, hash, p, lim))
  {
    if AdmitInto(w, p, size, lim).Admitted? { QuietInv(w, AfterAdmit(w, r, id, size, hash, p, lim), r); }
  }

  lemma FreshInitInv(w: World, r: Rid, id: Id, size: nat, hash: Digest, lim: Limits)
    requires Inv(w) && r in w.recv && w.recv[r].pc.Idle? && id !in w.recv[r].transfers
    ensures Inv(AfterFreshInit(w, r, id, size, hash, lim))
  {
    if |w.recv[r].transfers| < MAX_TRANSFERS {
      if HeldLive(w, Shared(id)) {
        NameInv(w);
        var p, w1 := Private(id, w.nextName), TakeName(w);
        forall q | q in w.recv ensures !Picked(w1.recv, q, p) { assert PcOk(w, q); }
        AdmitInv(w1, r, id, size, hash, p, lim);
      } else {
        AdmitInv(w, r, id, size, hash, Shared(id), lim);
      }
    }
  }

  lemma InitCheckInv(w: World, r: Rid, id: Id, size: nat, hash: Digest, lim: Limits)
    requires Inv(w) && r in w.recv && w.recv[r].pc.Idle?
    ensures Inv(AfterInitCheck(w, r, id, size, hash, lim))
  {
    if !Has(w.recv, r, id) {
      FreshInitInv(w, r, id, size, hash, lim);
    } else if Holds(w, X(w.recv, r, id).partial, X(w.recv, r, id).claim) {
      RepeatInitInv(w, r, id, size, hash, lim);
    } else {
      var w1 := DropX(w, r, id, Idle);
      GoneInv(w, w1, r, id);
      FreshInitInv(w1, r, id, size, hash, lim);
    }
  }

  // ---- INIT: the claim ---------------------------------------------------

  /** Receiver r takes a path no live transfer holds. */
  ghost predicate Takes(w: World, w': World, r: Rid, job: Job) {
    && r in w.recv && (w.recv[r].pc.Idle? || w.recv[r].pc.Checked?)
    && job.id !in w.recv[r].transfers && |w.recv[r].transfers| < MAX_TRANSFERS
    && PartialFor(job.partial, job.id) && Numbered(w, job.partial)
    && !HeldLive(w, job.partial)
    && (job.partial.Private? ==> NeverClaimed(w, job.partial))
    && (forall q :: q != r ==> !Picked(w.recv, q, job.partial))
    && w' == TakeClaim(w, r, job)
  }

  lemma TakesProtected(w: World, w': World, r: Rid, job: Job, q: Rid, i: Id)
    requires Inv(w) && Takes(w, w', r, job) && Has(w'.recv, q, i) && Protected(w', q, i)
    ensures Has(w.recv, q, i) && X(w'.recv, q, i) == X(w.recv, q, i) && Protected(w, q, i)
  {
    var t := X(w.recv, q, i);
    assert TransferOk(w, q, i);
    if !Holds(w', t.partial, t.claim) {
      var s :| Suspends(w', s, t.claim);
      if s != r {
        assert PcOk(w, s);
        assert Suspends(w, s, t.claim);
      }
    }
  }

  lemma TakesTransfers(w: World, w': World, r: Rid, job: Job)
    requires Inv(w) && Takes(w, w', r, job)
    ensures Transfers(w') && Guarded(w')
  {
    forall q: Rid, i: Id | Has(w'.recv, q, i) ensures TransferOk(w', q, i) {
      assert TransferOk(w, q, i);
    }
    forall q: Rid, i: Id | Has(w'.recv, q, i) ensures GuardedOne(w', q, i) {
      if Protected(w', q, i) {
        TakesProtected(w, w', r, job, q, i);
        assert GuardedOne(w, q, i);
      }
    }
  }

  lemma TakesClaimed(w: World, w': World, r: Rid, job: Job, q: Rid)
    requires Inv(w) && Takes(w, w', r, job) && q in w'.recv && w'.recv[q].pc.Claimed?
    ensures ClaimedOk(w', q)
  {
    if q != r {
      assert PcOk(w, q) && w.recv[q].pc.token < w.nextToken;
    }
  }

  lemma TakesPc(w: World, w': World, r: Rid, job: Job, q: Rid)
    requires Inv(w) && Takes(w, w', r, job) && q in w'.recv
    ensures PcOk(w', q)
  {
    assert PcOk(w, q);
    match w'.recv[q].pc
    case Claimed(_, _, _, _) => TakesClaimed(w, w', r, job, q);
    case Checked(j) => assert j.partial.Private? ==> Picked(w.recv, q, j.partial);
    case Verifying(i, _) => if Protected(w', q, i) { TakesProtected(w, w', r, job, q, i); }
    case Verified(i, _) => if Protected(w', q, i) { TakesProtected(w, w', r, job, q, i); }
    case Prepared(i, _) => if Protected(w', q, i) { TakesProtected(w, w', r, job, q, i); }
    case _ =>
  }

  lemma TakesOwners(w: World, w': World, r: Rid, job: Job)
    requires Inv(w) && Takes(w, w', r, job)
    ensures Owned(w')
  {
    assert Claimer(w'.recv, r, w.nextToken);
    forall p | p in w'.claims ensures HasOwner(w'.recv, w'.claims[p]) || !Live(w', w'.claims[p]) {
      if p != job.partial && HasOwner(w.recv, w.claims[p]) { OwnerStays(w.recv, w'.recv, w.claims[p]); }
    }
  }

  lemma TakesUnique(w: World, w': World, r: Rid, job: Job)
    requires Inv(w) && Takes(w, w', r, job)
    ensures Unique(w'.recv)
  {
    forall q, i | Has(w.recv, q, i) ensures X(w.recv, q, i).claim < w.nextToken { assert TransferOk(w, q, i); }
    forall q, tok: Token | Claimer(w.recv, q, tok) ensures tok < w.nextToken { assert PcOk(w, q); }
    forall q, tok: Token | Prev(w.recv, q, tok) && job.partial in w.claims ensures tok != w.claims[job.partial] { assert PcOk(w, q); }
    UniqueBut(w.recv, w'.recv, r);
  }

  lemma TakesTables(w: World, w': World, r: Rid, job: Job)
    requires Tables(w) && Files(w) && SavedOk(w) && Capacity(w) && Takes(w, w', r, job)
    ensures Tables(w') && Files(w') && SavedOk(w') && Capacity(w')
  {
  }

  lemma TakesInv(w: World, w': World, r: Rid, job: Job)
    requires Inv(w) && Takes(w, w', r, job)
    ensures Inv(w')
  {
    TakesTransfers(w, w', r, job);
    forall q | q in w'.recv ensures PcOk(w', q) { TakesPc(w, w', r, job, q); }
    TakesUnique(w, w', r, job);
    TakesOwners(w, w', r, job);
    TakesTables(w, w', r, job);
  }

  /** The race: the path was claimed since the check, so a private one is used. */
  lemma GoPrivateInv(w: World, r: Rid, lim: Limits)
    requires Inv(w) && r in w.recv && w.recv[r].pc.Checked? && HeldLive(w, w.recv[r].pc.job.partial)
    ensures Inv(AfterInitClaim(w, r, lim))
  {
    var job := w.recv[r].pc.job;
    var p, w1, w' := Private(job.id, w.nextName), TakeName(w), AfterInitClaim(w, r, lim);
    assert PcOk(w, r);
    forall q | q in w.recv ensures !Picked(w1.recv, q, p) { assert PcOk(w, q); }
    NameInv(w);
    var v := AdmitInto(w1, p, job.size, lim);
    if v.Admitted? {
      assert p !in w1.claims;
      TakesInv(w1, w', r, job.(partial := p, budget := v.budget));
    } else {
      QuietInv(w1, w', r);
    }
  }

  lemma InitClaimInv(w: World, r: Rid, lim: Limits)
    requires Inv(w) && r in w.recv && w.recv[r].pc.Checked?
    ensures Inv(AfterInitClaim(w, r, lim))
  {
    var job := w.recv[r].pc.job;
    if HeldLive(w, job.partial) {
      GoPrivateInv(w, r, lim);
    } else {
      assert PcOk(w, r);
      assert job.partial.Private? ==> Picked(w.recv, r, job.partial);
      TakesInv(w, AfterInitClaim(w, r, lim), r, job);
    }
  }
}
