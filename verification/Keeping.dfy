/** A holder that shows signs of life is never taken over. */
module Keeping {
  import opened Prelude
  import opened Reassembly
  import opened Admission
  import opened Receivers
  import opened Custody
  import opened Safety
  import opened Handover
  import opened Outcomes

  /** No time stamp of claim c but the old one or the present time. */
  ghost predicate Stamped(w: World, w': World, c: Token)
    requires c in w.last
  {
    c in w'.last && (w'.last[c] == w.last[c] || w'.last[c] == w.now)
  }

  lemma CheckStamps(w: World, r: Rid, id: Id, size: nat, hash: Digest, lim: Limits, c: Token)
    requires r in w.recv && w.recv[r].pc.Idle? && c in w.last
    ensures Stamped(w, AfterInitCheck(w, r, id, size, hash, lim), c)
  {
    if !Has(w.recv, r, id) { FreshJob(w, r, id, size, hash, lim); }
    else if !Holder(w, r, id) { FreshJob(DropX(w, r, id, Idle), r, id, size, hash, lim); }
    else { assert AfterRepeatInit(w, r, id, size, hash, lim).last == w.last[X(w.recv, r, id).claim := w.now]; }
  }

  lemma ClaimStamps(w: World, r: Rid, lim: Limits, c: Token)
    requires r in w.recv && w.recv[r].pc.Checked? && c in w.last && c < w.nextToken
    ensures Stamped(w, AfterInitClaim(w, r, lim), c)
  {
    var job := w.recv[r].pc.job;
    var job' := job.(partial := Private(job.id, w.nextName));
    TakeStamps(w, r, job, c);
    PrivateStamps(TakeName(w), r, job', lim, c);
  }

  lemma TakeStamps(w: World, r: Rid, job: Job, c: Token)
    requires r in w.recv && c in w.last && c < w.nextToken
    ensures Stamped(w, TakeClaim(w, r, job), c)
  {
  }

  lemma PrivateStamps(w: World, r: Rid, job: Job, lim: Limits, c: Token)
    requires r in w.recv && c in w.last && c < w.nextToken
    ensures Stamped(w, GoPrivate(w, r, job, lim), c)
  {
    var v := AdmitInto(w, job.partial, job.size, lim);
    if v.Admitted? { TakeStamps(w, r, job.(budget := v.budget), c); }
  }

  lemma RegisterStamps(w: World, r: Rid, statOk: bool, truncOk: bool)
    requires r in w.recv && w.recv[r].pc.Claimed?
    ensures Register(w, r, statOk, truncOk).last == w.last && FailInit(w, r).last == w.last
  {
  }

  lemma FinishStamps(w: World, r: Rid, openOk: bool, statOk: bool, truncOk: bool)
    requires r in w.recv && w.recv[r].pc.Claimed?
    ensures AfterInitFinish(w, r, openOk, statOk, truncOk).last == w.last
  {
    var w1 := OpenFile(w, w.recv[r].pc.job.partial);
    assert w1.last == w.last && w1.recv == w.recv;
    RegisterStamps(w, r, statOk, truncOk);
    RegisterStamps(w1, r, statOk, truncOk);
  }

  lemma WriteStamps(w: World, r: Rid, id: Id, b: Buf, bytes: seq<byte>, out: Outcome, c: Token)
    requires Has(w.recv, r, id) && c in w.last
    ensures Stamped(w, Write(w, r, id, b, bytes, out), c)
  {
  }

  lemma ChunkStamps(w: World, s: Step, c: Token)
    requires Enabled(w, s) && (s.ChunkIn? || s.DrainOne?) && c in w.last
    ensures Stamped(w, Next(w, s), c)
  {
    var id := if s.ChunkIn? then s.id else w.recv[s.r].pc.id;
    if Has(w.recv, s.r, id) {
      var b := X(w.recv, s.r, id).buf;
      if s.ChunkIn? { WriteStamps(w, s.r, id, b, s.bytes, s.out, c); }
      else if b.cursor in b.pending { WriteStamps(w, s.r, id, TakeNext(b), b.pending[b.cursor], s.out, c); }
    }
  }

  lemma VerifyStamps(w: World, s: Step, c: Token)
    requires Enabled(w, s) && (s.DoneIn? || s.HashRead?) && c in w.last
    ensures Stamped(w, Next(w, s), c)
  {
  }

  lemma InstallStamps(w: World, s: Step, c: Token)
    requires Enabled(w, s) && (s.Prepare? || s.Rename? || s.Commit?) && c in w.last
    ensures Stamped(w, Next(w, s), c)
  {
  }

  lemma EndStamps(w: World, s: Step, c: Token)
    requires Enabled(w, s) && (s.Tick? || s.Abandon? || s.FinishDiscard? || s.Drop?) && c in w.last
    ensures Stamped(w, Next(w, s), c)
  {
  }

  lemma StepStamps(w: World, s: Step, c: Token)
    requires Enabled(w, s) && c in w.last && c < w.nextToken
    ensures Stamped(w, Next(w, s), c)
  {
    match s
    case InitCheck(r, id, size, hash, lim) => CheckStamps(w, r, id, size, hash, lim, c);
    case InitClaim(r, lim) => ClaimStamps(w, r, lim, c);
    case InitFinish(r, openOk, statOk, truncOk) => FinishStamps(w, r, openOk, statOk, truncOk);
    case ChunkIn(_, _, _, _, _) => ChunkStamps(w, s, c);
    case DrainOne(_, _) => ChunkStamps(w, s, c);
    case DoneIn(_, _, _) => VerifyStamps(w, s, c);
    case HashRead(_, _, _) => VerifyStamps(w, s, c);
    case Prepare(_, _) => InstallStamps(w, s, c);
    case Rename(_, _) => InstallStamps(w, s, c);
    case Commit(_, _, _) => InstallStamps(w, s, c);
    case _ => EndStamps(w, s, c);
  }

  ghost predicate NotBy(ss: seq<Step>, r: Rid) { forall s :: s in ss ==> s.Tick? || s.r != r }

  lemma {:induction false} TimePasses(w: World, ss: seq<Step>)
    requires ValidRun(w, ss)
    ensures w.now <= After(w, ss).now
    decreases |ss|
  {
    if ss != [] { TimePasses(Next(w, ss[0]), ss[1..]); }
  }

  /** Whatever the others do, a holder keeps its claim and its file for 120 seconds
      from its last refresh. */
  lemma {:induction false} HolderKeeps(w: World, ss: seq<Step>, r: Rid, id: Id)
    requires Inv(w) && Holder(w, r, id) && ValidRun(w, ss) && NotBy(ss, r)
    requires var c := X(w.recv, r, id).claim; c in w.last && w.last[c] <= w.now && After(w, ss).now < w.last[c] + 120
    ensures var t, v := X(w.recv, r, id), After(w, ss);
            r in v.recv && v.recv[r] == w.recv[r] && Holds(v, t.partial, t.claim) && SameFile(w, v, t.partial)
    decreases |ss|
  {
    if ss != [] {
      assert ss[0] in ss;
      var t, w1 := X(w.recv, r, id), Next(w, ss[0]);
      assert TransferOk(w, r, id);
      TimePasses(w1, ss[1..]);
      TakeoverNeedsStale(w, ss[0], r, id);
      StepStamps(w, ss[0], t.claim);
      OthersLeave(w, ss[0], r, id);
      StepInv(w, ss[0]);
      HolderKeeps(w1, ss[1..], r, id);
    }
  }

  lemma OthersLeave(w: World, s: Step, r: Rid, id: Id)
    requires Inv(w) && Holder(w, r, id) && Enabled(w, s) && (s.Tick? || s.r != r)
    ensures SameFile(w, Next(w, s), X(w.recv, r, id).partial)
  {
    var p := X(w.recv, r, id).partial;
    assert TransferOk(w, r, id) && ClaimIsOf(w, r, p);
    if Touches(w, s, p) {
      TouchNeedsClaim(w, s, p);
      ClaimHasOneReceiver(w, r, s.r, p);
    }
    StepTouches(w, s, p);
  }

  /** A chunk at the cursor counts as a sign of life, whatever becomes of it. */
  lemma ChunkRefreshes(w: World, r: Rid, id: Id, bytes: seq<byte>, out: Outcome)
    requires Inv(w) && Holder(w, r, id) && w.recv[r].pc.Idle? && !out.TakenOver?
    requires X(w.recv, r, id).buf.cursor + |bytes| <= X(w.recv, r, id).buf.size
    ensures var t := X(w.recv, r, id);
            var v := Next(w, ChunkIn(r, id, t.buf.cursor, bytes, out));
            Holder(v, r, id) && X(v.recv, r, id).claim == t.claim && t.claim in v.last && v.last[t.claim] == v.now == w.now
  {
    assert TransferOk(w, r, id);
  }

  /** So is a DONE, and each read of the verification. */
  lemma DoneRefreshes(w: World, r: Rid, id: Id, syncOk: bool)
    requires Holder(w, r, id) && w.recv[r].pc.Idle?
    ensures var v := Next(w, DoneIn(r, id, syncOk)); Holder(v, r, id) && v.last == w.last[X(w.recv, r, id).claim := v.now]
  {
  }

  lemma ReadRefreshes(w: World, r: Rid, id: Id, n: nat, readOk: bool)
    requires Holder(w, r, id) && w.recv[r].pc.Verifying? && w.recv[r].pc.id == id && X(w.recv, r, id).file in w.data
    ensures var v := Next(w, HashRead(r, n, readOk)); Holder(v, r, id) && v.last == w.last[X(w.recv, r, id).claim := v.now]
  {
  }
}
