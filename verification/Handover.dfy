/**
 * How a .partial changes hands: only a quiet holder is taken over, a transfer
 * that lost its claim can do no harm, a refused INIT gives back what it took,
 * and what is renamed into place is what was verified.
 */
module Handover {
  import opened Prelude
  import opened Reassembly
  import opened Admission
  import opened Receivers
  import opened Custody
  import opened Ownership
  import opened Registration
  import opened Safety

  // ---- takeover ----------------------------------------------------------

  lemma DiscardClaims(w: World, r: Rid, id: Id, p: Path)
    requires Has(w.recv, r, id) && p in w.claims && X(w.recv, r, id).claim != w.claims[p]
    ensures Holds(Discard(w, r, id), p, w.claims[p])
  {
  }

  lemma AbandonClaims(w: World, r: Rid, p: Path)
    requires r in w.recv && w.recv[r].pc.Abandoning? && Has(w.recv, r, w.recv[r].pc.id)
    requires p in w.claims && X(w.recv, r, w.recv[r].pc.id).claim != w.claims[p]
    ensures Holds(AfterAbandon(w, r), p, w.claims[p])
  {
  }

  lemma EndClaims(w: World, s: Step, p: Path)
    requires Enabled(w, s) && (s.Abandon? || s.FinishDiscard? || s.Drop?)
    requires p in w.claims && !ClaimIsOf(w, s.r, p)
    ensures Holds(Next(w, s), p, w.claims[p])
  {
    var id := if s.Drop? then s.id else w.recv[s.r].pc.id;
    assert X(w.recv, s.r, id).claim != w.claims[p];
    if s.Abandon? { AbandonClaims(w, s.r, p); } else { DiscardClaims(w, s.r, id, p); }
  }

  lemma FailKeepsClaim(w: World, r: Rid, p: Path)
    requires r in w.recv && w.recv[r].pc.Claimed? && p in w.claims
    requires !w.recv[r].pc.prior ==> w.claims[p] != w.recv[r].pc.token
    ensures Holds(FailInit(w, r), p, w.claims[p])
  {
  }

  lemma FinishKeepsClaim(w: World, r: Rid, openOk: bool, statOk: bool, truncOk: bool, p: Path)
    requires r in w.recv && w.recv[r].pc.Claimed? && p in w.claims
    requires !w.recv[r].pc.prior ==> w.claims[p] != w.recv[r].pc.token
    ensures Holds(AfterInitFinish(w, r, openOk, statOk, truncOk), p, w.claims[p])
  {
    FailKeepsClaim(w, r, p);
    FailKeepsClaim(OpenFile(w, w.recv[r].pc.job.partial), r, p);
  }

  lemma InitFinishClaims(w: World, s: Step, p: Path)
    requires Inv(w) && Enabled(w, s) && s.InitFinish? && p in w.claims && !ClaimIsOf(w, s.r, p)
    ensures Holds(Next(w, s), p, w.claims[p])
  {
    var pc := w.recv[s.r].pc;
    assert !pc.prior ==> Claimer(w.recv, s.r, pc.token);
    FinishKeepsClaim(w, s.r, s.openOk, s.statOk, s.truncOk, p);
  }

  lemma ClaimKeepsClaim(w: World, r: Rid, lim: Limits, p: Path)
    requires r in w.recv && w.recv[r].pc.Checked? && p in w.claims && Numbered(w, p)
    requires HeldLive(w, p) || w.recv[r].pc.job.partial != p
    ensures Holds(AfterInitClaim(w, r, lim), p, w.claims[p])
  {
  }

  lemma InitClaimClaims(w: World, s: Step, p: Path)
    requires Inv(w) && Enabled(w, s) && s.InitClaim? && p in w.claims
    requires HeldLive(w, p) || w.recv[s.r].pc.job.partial != p
    ensures Holds(Next(w, s), p, w.claims[p])
  {
    assert p == w.home[w.claims[p]] && Numbered(w, p);
    ClaimKeepsClaim(w, s.r, s.lim, p);
  }

  /** A claim that is live and not the acting receiver's survives the step. */
  lemma StepClaims(w: World, s: Step, p: Path)
    requires Inv(w) && Enabled(w, s) && p in w.claims
    requires !s.Tick? ==> !ClaimIsOf(w, s.r, p)
    requires s.InitClaim? ==> HeldLive(w, p)
    ensures Holds(Next(w, s), p, w.claims[p])
  {
    if s.Abandon? || s.FinishDiscard? || s.Drop? { EndClaims(w, s, p); }
    else if s.InitFinish? { InitFinishClaims(w, s, p); }
    else if s.InitClaim? { InitClaimClaims(w, s, p); }
  }

  /** A holder loses its claim to another receiver in one way only: an INIT
      that passed its checks claims the path after the holder went STALE_AFTER
      seconds without refreshing. */
  lemma TakeoverNeedsStale(w: World, s: Step, r: Rid, id: Id)
    requires Inv(w) && Enabled(w, s) && (s.Tick? || s.r != r) && Has(w.recv, r, id)
    requires Holds(w, X(w.recv, r, id).partial, X(w.recv, r, id).claim)
    ensures r in Next(w, s).recv && Next(w, s).recv[r] == w.recv[r]
    ensures var t := X(w.recv, r, id);
            !Holds(Next(w, s), t.partial, t.claim) ==>
              && s.InitClaim? && w.recv[s.r].pc.job.partial == t.partial
              && t.claim in w.last && w.now - w.last[t.claim] >= STALE_AFTER
  {
    var t := X(w.recv, r, id);
    assert TransferOk(w, r, id) && ClaimIsOf(w, r, t.partial);
    if !s.Tick? && ClaimIsOf(w, s.r, t.partial) { ClaimHasOneReceiver(w, r, s.r, t.partial); }
    if s.InitClaim? && !HeldLive(w, t.partial) {
      if w.recv[s.r].pc.job.partial != t.partial { InitClaimClaims(w, s, t.partial); }
    } else {
      StepClaims(w, s, t.partial);
    }
  }

  // ---- a refused INIT ----------------------------------------------------

  lemma FailUndoesTake(w: World, r: Rid, job: Job)
    requires r in w.recv && (job.partial.Private? ==> job.partial !in w.dir)
    ensures var v := FailInit(TakeClaim(w, r, job), r); v.claims == w.claims && SameDisk(w, v)
  {
  }

  /** An INIT that takes a claim and is refused right after leaves claims, files
      and every other receiver exactly as they were: the holder it took over
      still holds. (Refused at its checks it never had a claim: see Next.) */
  lemma RefusedAtOnce(w: World, r: Rid, lim: Limits, statOk: bool, truncOk: bool)
    requires Inv(w) && Enabled(w, InitClaim(r, lim)) && Next(w, InitClaim(r, lim)).recv[r].pc.Claimed?
    ensures Enabled(Next(w, InitClaim(r, lim)), InitFinish(r, false, statOk, truncOk))
    ensures var v := Next(Next(w, InitClaim(r, lim)), InitFinish(r, false, statOk, truncOk));
            && v.claims == w.claims && SameDisk(w, v)
            && forall q :: q in w.recv && q != r ==> q in v.recv && v.recv[q] == w.recv[q]
  {
    var job := w.recv[r].pc.job;
    assert PcOk(w, r) && Private(job.id, w.nextName) !in w.dir;
    ClaimThenFail(w, r, lim, statOk, truncOk);
  }

  lemma ClaimThenFail(w: World, r: Rid, lim: Limits, statOk: bool, truncOk: bool)
    requires r in w.recv && w.recv[r].pc.Checked? && AfterInitClaim(w, r, lim).recv[r].pc.Claimed?
    requires var job := w.recv[r].pc.job;
             Private(job.id, w.nextName) !in w.dir && (job.partial.Private? ==> job.partial !in w.dir)
    ensures var w1 := AfterInitClaim(w, r, lim);
            var v := AfterInitFinish(w1, r, false, statOk, truncOk);
            && Live(w1, w1.recv[r].pc.token) && v.claims == w.claims && SameDisk(w, v)
  {
    var job := w.recv[r].pc.job;
    if HeldLive(w, job.partial) {
      var w1, p := TakeName(w), Private(job.id, w.nextName);
      FailUndoesTake(w1, r, job.(partial := p, budget := AdmitInto(w1, p, job.size, lim).budget));
    } else {
      FailUndoesTake(w, r, job);
    }
  }

  /** An INIT refused at its checks, or at the second admission of a private
      file, changes no claim, no file and no other receiver. */
  lemma RefusedAtChecks(w: World, s: Step)
    requires Enabled(w, s) && (s.InitCheck? || s.InitClaim?) && Next(w, s).recv[s.r].pc.Idle?
    ensures var v := Next(w, s);
            && v.claims == w.claims && SameDisk(w, v)
            && forall q :: q in w.recv && q != s.r ==> q in v.recv && v.recv[q] == w.recv[q]
  {
  }

  /** A holder, however quiet it was, can write its next chunk, and once it has
      every byte its DONE goes on to verification. */
  lemma HolderGoesOn(v: World, a: Rid, id: Id, bytes: seq<byte>)
    requires Inv(v) && Has(v.recv, a, id) && v.recv[a].pc.Idle?
    requires var t := X(v.recv, a, id);
             && Holds(v, t.partial, t.claim) && t.buf.cursor + |bytes| <= t.buf.size && Covered(t.buf)
    ensures var t := X(v.recv, a, id);
            var v' := Next(v, ChunkIn(a, id, t.buf.cursor, bytes, Written));
            && v'.recv[a].pc == Draining(id) && Has(v'.recv, a, id)
            && X(v'.recv, a, id).buf.cursor == t.buf.cursor + |bytes|
            && t.partial in v'.dir && v'.dir[t.partial] in v'.data
            && v'.data[v'.dir[t.partial]] == Overwrite(v.data[t.file], t.buf.cursor, bytes)
    ensures var t := X(v.recv, a, id);
            t.buf.cursor == t.buf.size ==> Next(v, DoneIn(a, id, true)).recv[a].pc == Verifying(id, [])
  {
    assert TransferOk(v, a, id) && GuardedOne(v, a, id) && Protected(v, a, id);
    HeldWrite(v, a, id, bytes);
  }

  lemma HeldWrite(v: World, a: Rid, id: Id, bytes: seq<byte>)
    requires Has(v.recv, a, id) && v.recv[a].pc.Idle?
    requires var t := X(v.recv, a, id);
             && Holds(v, t.partial, t.claim) && t.buf.cursor + |bytes| <= t.buf.size && Covered(t.buf) && t.file in v.data
    ensures var t := X(v.recv, a, id);
            var b := t.buf.(cursor := t.buf.cursor + |bytes|, budget := Debit(t.buf.budget, |bytes|));
            Next(v, ChunkIn(a, id, t.buf.cursor, bytes, Written))
            == Landed(v, a, id, t.(buf := b), Overwrite(v.data[t.file], t.buf.cursor, bytes), Draining(id))
  {
  }

  // ---- final names -------------------------------------------------------

  /** A receiver that has just renamed its file finds it at its final name,
      which no other receiver is committing. */
  ghost predicate Finals(w: World) {
    && (forall r :: Renaming(w.recv, r) ==> w.recv[r].pc.final.Final? && w.recv[r].pc.final in w.dir)
    && (forall r, q :: Renaming(w.recv, r) && Renaming(w.recv, q) && r != q ==> w.recv[r].pc.final != w.recv[q].pc.final)
  }

  ghost predicate Renaming(rs: Receivers, r: Rid) { r in rs && rs[r].pc.Renamed? }

  lemma FailKeepsFinal(w: World, r: Rid, f: Path)
    requires r in w.recv && w.recv[r].pc.Claimed? && f.Final? && f in w.dir
    ensures f in FailInit(w, r).dir
  {
  }

  lemma FinishKeepsFinal(w: World, r: Rid, openOk: bool, statOk: bool, truncOk: bool, f: Path)
    requires r in w.recv && w.recv[r].pc.Claimed? && f.Final? && f in w.dir
    ensures f in AfterInitFinish(w, r, openOk, statOk, truncOk).dir
  {
    FailKeepsFinal(w, r, f);
    FailKeepsFinal(OpenFile(w, w.recv[r].pc.job.partial), r, f);
  }

  lemma EndKeepsFinal(w: World, s: Step, f: Path)
    requires Transfers(w) && Enabled(w, s) && (s.Rename? || s.Abandon? || s.FinishDiscard? || s.Drop?)
    requires f.Final? && f in w.dir
    ensures f in Next(w, s).dir
  {
    assert TransferOk(w, s.r, if s.Drop? then s.id else w.recv[s.r].pc.id);
  }

  /** A final name goes only when its own commit fails. */
  lemma FinalStays(w: World, s: Step, f: Path)
    requires Inv(w) && Enabled(w, s) && f.Final? && f in w.dir && !(s.Commit? && w.recv[s.r].pc.final == f)
    ensures f in Next(w, s).dir
  {
    if s.InitFinish? { FinishKeepsFinal(w, s.r, s.openOk, s.statOk, s.truncOk, f); }
    else if s.Rename? || s.Abandon? || s.FinishDiscard? || s.Drop? { EndKeepsFinal(w, s, f); }
  }

  /** Only a rename makes a receiver Renamed, and its final name is new. */
  lemma RenamedIsNew(w: World, s: Step)
    requires Enabled(w, s) && !s.Tick? && Next(w, s).recv[s.r].pc.Renamed?
    ensures s.Rename? && Next(w, s).recv[s.r].pc.final == Final(w.nextName) && Final(w.nextName) in Next(w, s).dir
  {
    if s.InitCheck? || s.InitClaim? { InitIsNotRenamed(w, s); }
    else if s.ChunkIn? || s.DrainOne? || s.InitFinish? {}
    else if s.DoneIn? || s.HashRead? { DoneIsNotRenamed(w, s); }
  }

  lemma InitIsNotRenamed(w: World, s: Step)
    requires Enabled(w, s) && (s.InitCheck? || s.InitClaim?)
    ensures !Next(w, s).recv[s.r].pc.Renamed?
  {
  }

  lemma DoneIsNotRenamed(w: World, s: Step)
    requires Enabled(w, s) && (s.DoneIn? || s.HashRead?)
    ensures !Next(w, s).recv[s.r].pc.Renamed?
  {
  }

  lemma OtherFinal(w: World, s: Step, q: Rid)
    requires Inv(w) && Finals(w) && Enabled(w, s) && !s.Tick? && q != s.r && Renaming(Next(w, s).recv, q)
    ensures KeepsFinal(w, Next(w, s), q)
  {
    assert Renaming(w.recv, q) && Numbered(w, w.recv[q].pc.final);
    if s.Commit? { assert Renaming(w.recv, s.r); }
    FinalStays(w, s, w.recv[q].pc.final);
  }

  lemma StepFinals(w: World, s: Step)
    requires Inv(w) && Finals(w) && Enabled(w, s)
    ensures Finals(Next(w, s))
  {
    var w' := Next(w, s);
    if s.Tick? {
      assert w'.recv == w.recv;
    } else {
      if Renaming(w'.recv, s.r) { RenamedIsNew(w, s); }
      forall q | q != s.r && Renaming(w'.recv, q) ensures KeepsFinal(w, w', q) { OtherFinal(w, s, q); }
      FinalsFrom(w, w', s.r);
    }
  }

  /** A receiver other than the acting one is still at its final name, which is not the next new one. */
  ghost predicate KeepsFinal(w: World, w': World, q: Rid) {
    && Renaming(w.recv, q) && q in w'.recv && w'.recv[q] == w.recv[q]
    && w.recv[q].pc.final in w'.dir && w.recv[q].pc.final != Final(w.nextName)
  }

  lemma FinalsFrom(w: World, w': World, r: Rid)
    requires Finals(w) && (forall q :: q != r && Renaming(w'.recv, q) ==> KeepsFinal(w, w', q))
    requires Renaming(w'.recv, r) ==> w'.recv[r].pc.final == Final(w.nextName) && Final(w.nextName) in w'.dir
    ensures Finals(w')
  {
    forall q | Renaming(w'.recv, q) ensures w'.recv[q].pc.final.Final? && w'.recv[q].pc.final in w'.dir {
      assert q != r ==> KeepsFinal(w, w', q);
    }
    forall p, q | Renaming(w'.recv, p) && Renaming(w'.recv, q) && p != q
      ensures w'.recv[p].pc.final != w'.recv[q].pc.final
    {
      assert (p != r ==> KeepsFinal(w, w', p)) && (q != r ==> KeepsFinal(w, w', q));
    }
  }

  lemma {:induction false} RunFinals(w: World, ss: seq<Step>)
    requires Inv(w) && Finals(w) && ValidRun(w, ss)
    ensures Finals(After(w, ss))
    decreases |ss|
  {
    if ss != [] {
      StepInv(w, ss[0]);
      StepFinals(w, ss[0]);
      RunFinals(Next(w, ss[0]), ss[1..]);
    }
  }

  // ---- a transfer that lost its claim ------------------------------------

  /** Step s is receiver s.r acting on its transfer id. */
  ghost predicate ActsOn(w: World, s: Step, id: Id)
    requires Enabled(w, s)
  {
    match s
    case InitCheck(_, i, _, _, _) => i == id
    case ChunkIn(_, i, _, _, _) => i == id
    case DoneIn(_, i, _) => i == id
    case Drop(_, i) => i == id
    case DrainOne(r, _) => w.recv[r].pc.id == id
    case HashRead(r, _, _) => w.recv[r].pc.id == id
    case Prepare(r, _) => w.recv[r].pc.id == id
    case Rename(r, _) => w.recv[r].pc.id == id
    case Commit(r, _, _) => w.recv[r].pc.id == id
    case Abandon(r) => w.recv[r].pc.id == id
    case FinishDiscard(r) => w.recv[r].pc.id == id
    case _ => false
  }

  ghost predicate Untouched(v: World, v': World) {
    v'.claims == v.claims && v'.dir == v.dir && v'.data == v.data && v'.saved == v.saved
  }

  /** A commit that fails, with a file that can be removed. */
  ghost predicate TakesBack(s: Step) { s.Commit? && !s.ok && s.removeOk }

  /** Whatever a superseded transfer still does (write, DONE, rename, commit,
      discard, abandon, close, a repeated INIT), no claim, no file and no entry
      changes, exactly unless its own commit fails after the rename; and then
      only the file it had put in place goes. */
  lemma SupersededIsHarmless(w: World, ss: seq<Step>, s: Step, id: Id)
    requires Initial(w) && ValidRun(w, ss) && Enabled(After(w, ss), s) && ActsOn(After(w, ss), s, id)
    requires Has(After(w, ss).recv, s.r, id)
    requires var t := X(After(w, ss).recv, s.r, id); !Holds(After(w, ss), t.partial, t.claim)
    ensures var v := After(w, ss);
            var v' := Next(v, s);
            && (Untouched(v, v') <==> !TakesBack(s))
            && (TakesBack(s) ==>
                  var f := v.recv[s.r].pc.final;
                  f.Final? && v'.claims == v.claims && v'.data == v.data && v'.dir == v.dir - {f} && v'.saved == v.saved - {f})
  {
    var v := After(w, ss);
    InitialInv(w);
    ReachableInv(w, ss);
    RunFinals(w, ss);
    if s.Commit? { CommitTakesBack(v, s); }
    else { Harmless(v, s, id); }
  }

  lemma CommitTakesBack(v: World, s: Step)
    requires Enabled(v, s) && s.Commit? && Finals(v)
    ensures var v', f := Next(v, s), v.recv[s.r].pc.final;
            && f.Final? && f in v.dir && v'.claims == v.claims && v'.data == v.data
            && (if TakesBack(s) then v'.dir == v.dir - {f} && v'.saved == v.saved - {f} else Untouched(v, v'))
  {
  }

  lemma Harmless(v: World, s: Step, id: Id)
    requires Inv(v) && Enabled(v, s) && ActsOn(v, s, id) && Has(v.recv, s.r, id) && !s.Commit?
    requires var t := X(v.recv, s.r, id); !Holds(v, t.partial, t.claim)
    ensures Untouched(v, Next(v, s))
  {
    assert TransferOk(v, s.r, id);
    if s.Abandon? || s.FinishDiscard? || s.Drop? { HarmlessEnd(v, s, id); }
    else if s.ChunkIn? || s.DrainOne? { HarmlessChunk(v, s, id); }
    else if s.Rename? { HarmlessRename(v, s, id); }
  }

  lemma HarmlessChunk(v: World, s: Step, id: Id)
    requires Enabled(v, s) && ActsOn(v, s, id) && Has(v.recv, s.r, id) && (s.ChunkIn? || s.DrainOne?)
    requires var t := X(v.recv, s.r, id); !Holds(v, t.partial, t.claim)
    ensures Untouched(v, Next(v, s))
  {
  }

  lemma HarmlessRename(v: World, s: Step, id: Id)
    requires Enabled(v, s) && ActsOn(v, s, id) && Has(v.recv, s.r, id) && s.Rename?
    requires var t := X(v.recv, s.r, id); !Holds(v, t.partial, t.claim)
    ensures Untouched(v, Next(v, s))
  {
  }

  lemma HarmlessEnd(v: World, s: Step, id: Id)
    requires Enabled(v, s) && ActsOn(v, s, id) && Has(v.recv, s.r, id) && TransferOk(v, s.r, id)
    requires s.Abandon? || s.FinishDiscard? || s.Drop?
    requires var t := X(v.recv, s.r, id); !Holds(v, t.partial, t.claim)
    ensures Untouched(v, Next(v, s))
  {
  }

  // ---- what is installed -------------------------------------------------

  /** The bytes renamed into place are exactly the bytes hashed, all of the
      file and of the declared digest and length; without the claim nothing is
      renamed. */
  lemma RenameInstallsVerified(w: World, ss: seq<Step>, r: Rid, ok: bool)
    requires Initial(w) && ValidRun(w, ss) && Enabled(After(w, ss), Step.Rename(r, ok))
    ensures var v := After(w, ss);
            var v', id, h := Next(v, Step.Rename(r, ok)), v.recv[r].pc.id, v.recv[r].pc.hashed;
            var t, f := X(v.recv, r, id), Final(v.nextName);
            if Holds(v, t.partial, t.claim) && ok
            then && t.partial in v.dir && v.dir[t.partial] in v.data && v.data[v.dir[t.partial]] == h
                 && f !in v.dir && f in v'.dir && v'.dir[f] == v.dir[t.partial] && t.partial !in v'.dir
                 && v.sha(h) == t.hash && t.buf.cursor == t.buf.size
                 && v'.saved == v.saved[f := Saved(h, t.hash, id)]
            else v'.dir == v.dir && v'.data == v.data && v'.saved == v.saved
  {
    var v := After(w, ss);
    ReachableInv(w, ss);
    var id := v.recv[r].pc.id;
    assert PcOk(v, r) && GuardedOne(v, r, id);
    assert Protected(v, r, id) <== Holds(v, X(v.recv, r, id).partial, X(v.recv, r, id).claim);
  }

  lemma RenameSaved(w: World, r: Rid, ok: bool, f: Path)
    requires r in w.recv && w.recv[r].pc.Prepared? && Has(w.recv, r, w.recv[r].pc.id) && f != Final(w.nextName)
    ensures f in AfterRename(w, r, ok).saved ==> f in w.saved && AfterRename(w, r, ok).saved[f] == w.saved[f]
  {
  }

  lemma SavedStep(w: World, s: Step, f: Path)
    requires Enabled(w, s) && f.Final? && f.n < w.nextName
    ensures w.nextName <= Next(w, s).nextName && Next(w, s).sha == w.sha
    ensures f in Next(w, s).saved ==> f in w.saved && Next(w, s).saved[f] == w.saved[f]
  {
    if s.Rename? { RenameSaved(w, s.r, s.ok, f); }
  }

  /** A file once installed keeps exactly its verified bytes for as long as it
      is there, though superseded transfers may still hold it open. */
  lemma {:induction false} InstalledStays(w: World, ss: seq<Step>, f: Path)
    requires Inv(w) && ValidRun(w, ss) && f in w.saved && f.Final? && f.n < w.nextName
    ensures var v := After(w, ss);
            f in v.saved ==>
              && v.saved[f] == w.saved[f] && f in v.dir && v.dir[f] in v.data
              && v.data[v.dir[f]] == w.saved[f].bytes && w.sha(w.saved[f].bytes) == w.saved[f].hash
    decreases |ss|
  {
    RunInv(w, ss);
    InstalledSame(w, ss, f);
  }

  lemma {:induction false} InstalledSame(w: World, ss: seq<Step>, f: Path)
    requires Inv(w) && ValidRun(w, ss) && f.Final? && f.n < w.nextName
    ensures f in After(w, ss).saved ==> f in w.saved && After(w, ss).saved[f] == w.saved[f]
    ensures After(w, ss).sha == w.sha
    decreases |ss|
  {
    if ss != [] {
      StepInv(w, ss[0]);
      SavedStep(w, ss[0], f);
      InstalledSame(Next(w, ss[0]), ss[1..], f);
    }
  }
}
