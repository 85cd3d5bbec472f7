/**
 * What each frame of a stream comes to when its receiver handles it and nobody
 * acts in between: the steps of the handler together, against what the source
 * says of the frame.
 */
module Outcomes {
  import opened Prelude
  import opened Reassembly
  import opened Admission
  import opened Receivers
  import opened Custody
  import opened Safety
  import opened Handover
  import opened Finish

  ghost function BytesAt(w: World, p: Path): seq<byte> {
    if p in w.dir && w.dir[p] in w.data then w.data[w.dir[p]] else []
  }

  ghost predicate Holder(w: World, r: Rid, id: Id) {
    Has(w.recv, r, id) && Holds(w, X(w.recv, r, id).partial, X(w.recv, r, id).claim)
  }

  // ---- INIT --------------------------------------------------------------

  /** The .partial an INIT is for: its own if it repeats a transfer that still
      holds one; else the shared one, or a private one while that is held live. */
  ghost function PathFor(w: World, r: Rid, id: Id): Path {
    if Holder(w, r, id) then X(w.recv, r, id).partial
    else if HeldLive(w, Shared(id)) then Private(id, w.nextName)
    else Shared(id)
  }

  /** There is a slot for the transfer, and quota and disk admit it. */
  ghost predicate Acceptable(w: World, r: Rid, id: Id, size: nat, lim: Limits)
    requires r in w.recv
  {
    && (Has(w.recv, r, id) || |w.recv[r].transfers| < 64)
    && AdmitInto(w, PathFor(w, r, id), size, lim).Admitted?
  }

  /** The steps of an INIT whose file can be opened. */
  ghost function InitRun(w: World, r: Rid, id: Id, size: nat, hash: Digest, lim: Limits, lim2: Limits,
                         statOk: bool, truncOk: bool): seq<Step> {
    if Holder(w, r, id) then [InitCheck(r, id, size, hash, lim), InitFinish(r, true, statOk, truncOk)]
    else [InitCheck(r, id, size, hash, lim), InitClaim(r, lim2), InitFinish(r, true, statOk, truncOk)]
  }

  /** Transfer id of receiver r is what this INIT asked for: its size, its digest
      and the budget it was admitted with; at the path chosen for it, which it
      holds; and with its cursor at the end of the bytes found there, all of them
      kept, if they were not more than the declared size, and else at 0. */
  ghost predicate Accepted(w: World, v: World, r: Rid, id: Id, size: nat, hash: Digest, lim: Limits, statOk: bool, truncOk: bool)
    requires r in w.recv
  {
    var p := PathFor(w, r, id);
    var found := BytesAt(w, p);
    var kept := statOk && |found| <= size;
    && Has(v.recv, r, id) && v.recv[r].pc.Idle? && OthersKept(w.recv[r], v.recv[r], id)
    && AdmitInto(w, p, size, lim).Admitted?
    && var t := X(v.recv, r, id);
       && t.hash == hash && t.partial == p
       && t.buf == Buf(size, if kept then |found| else 0, map[], 0, AdmitInto(w, p, size, lim).budget)
       && t.claim == (if Holder(w, r, id) then X(w.recv, r, id).claim else w.nextToken)
       && v.claims == w.claims[p := t.claim] && v.dir == w.dir[p := t.file] && v.saved == w.saved
       && t.file in v.data && v.data[t.file] == if kept || !truncOk then found else []
  }

  /** What registering job under the claim tok leaves of world w. */
  ghost predicate Opened(w: World, v: World, r: Rid, job: Job, tok: Token, statOk: bool, truncOk: bool)
    requires r in w.recv
  {
    var found := BytesAt(w, job.partial);
    var kept := statOk && |found| <= job.size;
    && r in v.recv && job.partial in v.dir
    && var file := v.dir[job.partial];
       var t := Transfer(file, job.partial, tok, job.hash, Buf(job.size, if kept then |found| else 0, map[], 0, job.budget));
       && v.recv[r] == Receiver(w.recv[r].transfers[job.id := t], Idle)
       && v.claims == w.claims && v.saved == w.saved && v.dir == w.dir[job.partial := file]
       && file in v.data && v.data[file] == if kept || !truncOk then found else []
  }

  lemma RegisterOpens(w: World, r: Rid, statOk: bool, truncOk: bool)
    requires r in w.recv && w.recv[r].pc.Claimed?
    requires w.recv[r].pc.job.partial in w.dir && w.dir[w.recv[r].pc.job.partial] in w.data
    ensures Opened(w, Register(w, r, statOk, truncOk), r, w.recv[r].pc.job, w.recv[r].pc.token, statOk, truncOk)
  {
    var job := w.recv[r].pc.job;
    ResumesWhereItEnds(|BytesAt(w, job.partial)|, job.size);
    assert w.dir[job.partial := w.dir[job.partial]] == w.dir;
  }

  lemma FinishOpens(w: World, r: Rid, statOk: bool, truncOk: bool)
    requires r in w.recv && w.recv[r].pc.Claimed?
    requires var p := w.recv[r].pc.job.partial; p in w.dir ==> w.dir[p] in w.data
    requires w.recv[r].pc.job.id in w.recv[r].transfers || |w.recv[r].transfers| < 64
    ensures Opened(w, AfterInitFinish(w, r, true, statOk, truncOk), r, w.recv[r].pc.job, w.recv[r].pc.token, statOk, truncOk)
  {
    var p := w.recv[r].pc.job.partial;
    var w1 := OpenFile(w, p);
    assert BytesAt(w1, p) == BytesAt(w, p);
    RegisterOpens(w1, r, statOk, truncOk);
  }

  /** The claim an INIT registers its transfer under. */
  ghost function ClaimFor(w: World, r: Rid, id: Id): Token {
    if Holder(w, r, id) then X(w.recv, r, id).claim else w.nextToken
  }

  ghost function JobFor(w: World, r: Rid, id: Id, size: nat, hash: Digest, lim: Limits): Job
    requires AdmitInto(w, PathFor(w, r, id), size, lim).Admitted?
  {
    Job(id, size, hash, PathFor(w, r, id), AdmitInto(w, PathFor(w, r, id), size, lim).budget)
  }

  /** w1 is w, but for the claim the INIT has got. */
  ghost predicate Claimed1(w: World, w1: World, r: Rid, id: Id, size: nat, hash: Digest, lim: Limits)
    requires r in w.recv
  {
    && AdmitInto(w, PathFor(w, r, id), size, lim).Admitted?
    && r in w1.recv && SameDisk(w, w1) && w1.claims == w.claims[PathFor(w, r, id) := ClaimFor(w, r, id)]
    && OthersKept(w.recv[r], w1.recv[r], id) && w1.recv[r].pc.Claimed? && Live(w1, ClaimFor(w, r, id))
    && w1.recv[r].pc.job == JobFor(w, r, id, size, hash, lim) && w1.recv[r].pc.token == ClaimFor(w, r, id)
    && (id in w1.recv[r].transfers || |w1.recv[r].transfers| < 64)
  }

  lemma ClaimedIsAccepted(w: World, w1: World, r: Rid, id: Id, size: nat, hash: Digest, lim: Limits, statOk: bool, truncOk: bool)
    requires Files(w) && r in w.recv && Claimed1(w, w1, r, id, size, hash, lim)
    ensures Enabled(w1, InitFinish(r, true, statOk, truncOk))
    ensures Accepted(w, Next(w1, InitFinish(r, true, statOk, truncOk)), r, id, size, hash, lim, statOk, truncOk)
  {
    FinishOpens(w1, r, statOk, truncOk);
    OpenedIsAccepted(w, w1, AfterInitFinish(w1, r, true, statOk, truncOk), r, id, size, hash, lim, statOk, truncOk);
  }

  lemma OpenedIsAccepted(w: World, w1: World, v: World, r: Rid, id: Id, size: nat, hash: Digest, lim: Limits, statOk: bool, truncOk: bool)
    requires r in w.recv && Claimed1(w, w1, r, id, size, hash, lim)
    requires Opened(w1, v, r, w1.recv[r].pc.job, w1.recv[r].pc.token, statOk, truncOk)
    ensures Accepted(w, v, r, id, size, hash, lim, statOk, truncOk)
  {
  }

  lemma SameAdmission(w: World, w': World, p: Path, size: nat, lim: Limits)
    requires SameDisk(w, w')
    ensures AdmitInto(w', p, size, lim) == AdmitInto(w, p, size, lim)
  {
  }

  /** A repeated INIT of a transfer that holds its file. */
  lemma RepeatChecks(w: World, r: Rid, id: Id, size: nat, hash: Digest, lim: Limits)
    requires Inv(w) && r in w.recv && w.recv[r].pc.Idle? && Holder(w, r, id)
    ensures var w1 := Next(w, InitCheck(r, id, size, hash, lim));
            if Acceptable(w, r, id, size, lim) then Claimed1(w, w1, r, id, size, hash, lim) else w1.recv[r].pc.Idle?
  {
    var t := X(w.recv, r, id);
    SameAdmission(w, Refresh(w, t.claim), t.partial, size, lim);
    if Acceptable(w, r, id, size, lim) {
      assert Next(w, InitCheck(r, id, size, hash, lim))
          == SetPc(Refresh(w, t.claim), r, Claimed(JobFor(w, r, id, size, hash, lim), t.claim, None, true));
      assert w.claims[t.partial := t.claim] == w.claims;
    }
  }

  /** w1 is w, but for the job the INIT has got: for the chosen path, which nobody holds live. */
  ghost predicate Checked1(w: World, w1: World, r: Rid, id: Id, size: nat, hash: Digest, lim: Limits)
    requires r in w.recv && AdmitInto(w, PathFor(w, r, id), size, lim).Admitted?
  {
    && r in w1.recv && w1.recv[r].pc == Checked(JobFor(w, r, id, size, hash, lim)) && SameDisk(w, w1)
    && w1.claims == w.claims && w1.nextToken == w.nextToken && OthersKept(w.recv[r], w1.recv[r], id)
    && |w1.recv[r].transfers| < 64 && !HeldLive(w1, PathFor(w, r, id))
  }

  /** The checks of any other INIT. */
  lemma FreshChecks(w: World, r: Rid, id: Id, size: nat, hash: Digest, lim: Limits)
    requires Inv(w) && r in w.recv && w.recv[r].pc.Idle? && !Holder(w, r, id)
    ensures var w1 := Next(w, InitCheck(r, id, size, hash, lim));
            if Acceptable(w, r, id, size, lim) then Checked1(w, w1, r, id, size, hash, lim) else w1.recv[r].pc.Idle?
  {
    var w0 := if Has(w.recv, r, id) then DropX(w, r, id, Idle) else w;
    assert |w.recv[r].transfers| <= 64;
    PrivateIsNew(w, id);
    SameAdmission(w, w0, PathFor(w, r, id), size, lim);
    FreshJob(w0, r, id, size, hash, lim);
    assert Next(w, InitCheck(r, id, size, hash, lim)) == AfterFreshInit(w0, r, id, size, hash, lim);
  }

  lemma PrivateIsNew(w: World, id: Id)
    requires Inv(w)
    ensures Private(id, w.nextName) !in w.claims && Private(id, w.nextName) !in w.dir
  {
  }

  lemma FreshJob(w: World, r: Rid, id: Id, size: nat, hash: Digest, lim: Limits)
    requires r in w.recv && w.recv[r].pc.Idle?
    ensures var p := if HeldLive(w, Shared(id)) then Private(id, w.nextName) else Shared(id);
            var w1 := AfterFreshInit(w, r, id, size, hash, lim);
            var v := AdmitInto(w, p, size, lim);
            && w1.nextToken == w.nextToken && w1.last == w.last && w1.now == w.now
            && w1.recv[r].pc == if |w.recv[r].transfers| < 64 && v.Admitted? then Checked(Job(id, size, hash, p, v.budget)) else Idle
  {
    SameAdmission(w, TakeName(w), Private(id, w.nextName), size, lim);
  }

  lemma FreshClaims(w: World, w1: World, r: Rid, id: Id, size: nat, hash: Digest, lim: Limits, lim2: Limits)
    requires r in w.recv && !Holder(w, r, id) && Acceptable(w, r, id, size, lim) && Checked1(w, w1, r, id, size, hash, lim)
    ensures Claimed1(w, Next(w1, InitClaim(r, lim2)), r, id, size, hash, lim)
  {
    assert Next(w1, InitClaim(r, lim2)) == TakeClaim(w1, r, JobFor(w, r, id, size, hash, lim));
  }

  lemma RunTwo(w: World, s1: Step, s2: Step)
    requires Enabled(w, s1) && Enabled(Next(w, s1), s2)
    ensures ValidRun(w, [s1, s2]) && After(w, [s1, s2]) == Next(Next(w, s1), s2)
  {
    RunCons(Next(w, s1), s2, []);
    RunCons(w, s1, [s2]);
    assert [s1] + [s2] == [s1, s2] && [s2] + [] == [s2];
  }

  lemma RunThree(w: World, s1: Step, s2: Step, s3: Step)
    requires Enabled(w, s1) && Enabled(Next(w, s1), s2) && Enabled(Next(Next(w, s1), s2), s3)
    ensures ValidRun(w, [s1, s2, s3]) && After(w, [s1, s2, s3]) == Next(Next(Next(w, s1), s2), s3)
  {
    RunTwo(Next(w, s1), s2, s3);
    RunCons(w, s1, [s2, s3]);
    assert [s1] + [s2, s3] == [s1, s2, s3];
  }

  lemma RepeatOutcome(w: World, r: Rid, id: Id, size: nat, hash: Digest, lim: Limits, statOk: bool, truncOk: bool)
    requires Inv(w) && r in w.recv && w.recv[r].pc.Idle? && Holder(w, r, id) && Acceptable(w, r, id, size, lim)
    ensures var ss := [InitCheck(r, id, size, hash, lim), InitFinish(r, true, statOk, truncOk)];
            ValidRun(w, ss) && Accepted(w, After(w, ss), r, id, size, hash, lim, statOk, truncOk)
  {
    var s1 := InitCheck(r, id, size, hash, lim);
    RepeatChecks(w, r, id, size, hash, lim);
    ClaimedIsAccepted(w, Next(w, s1), r, id, size, hash, lim, statOk, truncOk);
    RunTwo(w, s1, InitFinish(r, true, statOk, truncOk));
  }

  lemma FreshOutcome(w: World, r: Rid, id: Id, size: nat, hash: Digest, lim: Limits, lim2: Limits, statOk: bool, truncOk: bool)
    requires Inv(w) && r in w.recv && w.recv[r].pc.Idle? && !Holder(w, r, id) && Acceptable(w, r, id, size, lim)
    ensures var ss := [InitCheck(r, id, size, hash, lim), InitClaim(r, lim2), InitFinish(r, true, statOk, truncOk)];
            ValidRun(w, ss) && Accepted(w, After(w, ss), r, id, size, hash, lim, statOk, truncOk)
  {
    var s1, s2 := InitCheck(r, id, size, hash, lim), InitClaim(r, lim2);
    FreshChecks(w, r, id, size, hash, lim);
    FreshClaims(w, Next(w, s1), r, id, size, hash, lim, lim2);
    ClaimedIsAccepted(w, Next(Next(w, s1), s2), r, id, size, hash, lim, statOk, truncOk);
    RunThree(w, s1, s2, InitFinish(r, true, statOk, truncOk));
  }

  /** What an INIT handled in one go comes to, if its file can be opened: accepted
      as declared exactly if there is a slot for it and quota and disk admit it;
      otherwise refused at its checks (of which RefusedInit says that they leave
      everything as it was). */
  lemma InitOutcome(w: World, r: Rid, id: Id, size: nat, hash: Digest, lim: Limits, lim2: Limits, statOk: bool, truncOk: bool)
    requires Inv(w) && r in w.recv && w.recv[r].pc.Idle?
    ensures var ss := InitRun(w, r, id, size, hash, lim, lim2, statOk, truncOk);
            && (Acceptable(w, r, id, size, lim) <==> !Next(w, ss[0]).recv[r].pc.Idle?)
            && (Acceptable(w, r, id, size, lim) ==>
                  ValidRun(w, ss) && Accepted(w, After(w, ss), r, id, size, hash, lim, statOk, truncOk))
  {
    if Holder(w, r, id) {
      RepeatChecks(w, r, id, size, hash, lim);
      if Acceptable(w, r, id, size, lim) { RepeatOutcome(w, r, id, size, hash, lim, statOk, truncOk); }
    } else {
      FreshChecks(w, r, id, size, hash, lim);
      if Acceptable(w, r, id, size, lim) { FreshOutcome(w, r, id, size, hash, lim, lim2, statOk, truncOk); }
    }
  }

  /** A path that somebody else claimed since the checks is left to them: the
      INIT goes on with a private file, exactly if that is admitted too, with the
      budget of this second admission; and else it is refused. */
  lemma LateClaim(w: World, r: Rid, lim: Limits)
    requires Inv(w) && r in w.recv && w.recv[r].pc.Checked? && HeldLive(w, w.recv[r].pc.job.partial)
    ensures var job, v := w.recv[r].pc.job, Next(w, InitClaim(r, lim));
            var p := Private(job.id, w.nextName);
            var admission := AdmitInto(w, p, job.size, lim);
            && p !in w.dir && p !in w.claims && SameDisk(w, v) && v.recv[r].transfers == w.recv[r].transfers
            && if admission.Admitted?
               then && v.recv[r].pc == Claimed(Job(job.id, job.size, job.hash, p, admission.budget), w.nextToken, None, false)
                    && v.claims == w.claims[p := w.nextToken] && Live(v, w.nextToken)
               else v.recv[r].pc.Idle? && v.claims == w.claims
  {
    var job := w.recv[r].pc.job;
    PrivateIsNew(w, job.id);
    SameAdmission(w, TakeName(w), Private(job.id, w.nextName), job.size, lim);
  }

  // ---- CHUNK -------------------------------------------------------------

  /** Where a receiver is once a chunk was handled so. */
  ghost function ChunkPc(id: Id, status: Status): Pc {
    match status
    case WriteError(full) => if full then Abandoning(id) else Idle
    case Superseded => Discarding(id)
    case _ => Idle
  }

  /** v is w with the transfer and its file as e leaves them, its claim perhaps
      refreshed, and nothing else. */
  ghost predicate Left(w: World, v: World, r: Rid, id: Id, e: Effect, pc: Pc)
    requires Has(w.recv, r, id)
  {
    var t := X(w.recv, r, id);
    v == w.(last := v.last, data := w.data[t.file := e.file],
            recv := w.recv[r := Receiver(w.recv[r].transfers[id := t.(buf := e.buf)], pc)])
  }

  lemma LeftThen(w: World, w1: World, v: World, r: Rid, id: Id, e1: Effect, e: Effect, pc1: Pc, pc: Pc)
    requires Has(w.recv, r, id) && Left(w, w1, r, id, e1, pc1) && Left(w1, v, r, id, e, pc)
    ensures Left(w, v, r, id, e, pc)
  {
    var t := X(w.recv, r, id);
    assert w.recv[r].transfers[id := t.(buf := e1.buf)][id := t.(buf := e.buf)] == w.recv[r].transfers[id := t.(buf := e.buf)];
    assert w.data[t.file := e1.file][t.file := e.file] == w.data[t.file := e.file];
  }

  /** One write of a holder. */
  lemma WriteLeaves(w: World, r: Rid, id: Id, b: Buf, bytes: seq<byte>, out: Outcome)
    requires Holder(w, r, id) && X(w.recv, r, id).file in w.data && !out.TakenOver?
    ensures var e := WriteEffect(b, w.data[X(w.recv, r, id).file], bytes, out);
            && Left(w, Write(w, r, id, b, bytes, out), r, id, e, if e.status.Fine? then Draining(id) else ChunkPc(id, e.status))
            && Holder(Write(w, r, id, b, bytes, out), r, id)
  {
  }

  lemma {:induction false} DrainSteps(w: World, r: Rid, id: Id, out: nat -> Outcome, k: nat) returns (ss: seq<Step>)
    requires Holder(w, r, id) && X(w.recv, r, id).file in w.data && w.recv[r].pc == Draining(id)
    requires forall j :: !out(j).TakenOver?
    ensures ValidRun(w, ss) && OwnSteps(ss, r)
    ensures var t := X(w.recv, r, id);
            var e := Drain(t.buf, w.data[t.file], out, k);
            Left(w, After(w, ss), r, id, e, ChunkPc(id, e.status))
    decreases |X(w.recv, r, id).buf.pending|
  {
    var t, s := X(w.recv, r, id), DrainOne(r, out(k));
    var w1 := Next(w, s);
    if t.buf.cursor in t.buf.pending {
      var bytes := t.buf.pending[t.buf.cursor];
      var e1 := WriteEffect(TakeNext(t.buf), w.data[t.file], bytes, out(k));
      WriteLeaves(w, r, id, TakeNext(t.buf), bytes, out(k));
      if e1.status.Fine? {
        ss := DrainSteps(w1, r, id, out, k + 1);
        var e := Drain(e1.buf, e1.file, out, k + 1);
        LeftThen(w, w1, After(w1, ss), r, id, e1, e, Draining(id), ChunkPc(id, e.status));
      } else {
        ss := [];
      }
    } else {
      DrainedLeaves(w, r, id, out(k));
      ss := [];
    }
    RunCons(w, s, ss);
    ss := [s] + ss;
  }

  lemma DrainedLeaves(w: World, r: Rid, id: Id, out: Outcome)
    requires Has(w.recv, r, id) && X(w.recv, r, id).file in w.data && w.recv[r].pc == Draining(id)
    requires X(w.recv, r, id).buf.cursor !in X(w.recv, r, id).buf.pending
    ensures var t := X(w.recv, r, id); Left(w, AfterDrain(w, r, out), r, id, Effect(t.buf, w.data[t.file], Fine), Idle)
  {
    var t := X(w.recv, r, id);
    SameLeft(w, r, id, Idle);
  }

  lemma SameLeft(w: World, r: Rid, id: Id, pc: Pc)
    requires Has(w.recv, r, id) && X(w.recv, r, id).file in w.data
    ensures var t := X(w.recv, r, id); Left(w, SetPc(w, r, pc), r, id, Effect(t.buf, w.data[t.file], Fine), pc)
  {
    var t := X(w.recv, r, id);
    assert w.recv[r].transfers[id := t] == w.recv[r].transfers && w.data[t.file := w.data[t.file]] == w.data;
  }

  /** A chunk that comes in at the cursor of a holder. */
  lemma CursorSteps(w: World, r: Rid, id: Id, bytes: seq<byte>, out: nat -> Outcome) returns (ss: seq<Step>)
    requires Holder(w, r, id) && X(w.recv, r, id).file in w.data && w.recv[r].pc.Idle?
    requires forall j :: !out(j).TakenOver?
    requires X(w.recv, r, id).buf.cursor + |bytes| <= X(w.recv, r, id).buf.size
    ensures var t := X(w.recv, r, id);
            var e := Chunk(t.buf, w.data[t.file], t.buf.cursor, bytes, out);
            ValidRun(w, ss) && OwnSteps(ss, r) && Left(w, After(w, ss), r, id, e, ChunkPc(id, e.status))
  {
    var t := X(w.recv, r, id);
    var s := ChunkIn(r, id, t.buf.cursor, bytes, out(0));
    var w1 := Next(w, s);
    var e1 := WriteEffect(t.buf, w.data[t.file], bytes, out(0));
    WriteLeaves(w, r, id, t.buf, bytes, out(0));
    ss := [];
    if e1.status.Fine? {
      ss := DrainSteps(w1, r, id, out, 1);
      var e := Drain(e1.buf, e1.file, out, 1);
      LeftThen(w, w1, After(w1, ss), r, id, e1, e, Draining(id), ChunkPc(id, e.status));
    }
    RunCons(w, s, ss);
    ss := [s] + ss;
  }

  /** Any other chunk writes nothing. */
  lemma OtherChunk(w: World, r: Rid, id: Id, off: nat, bytes: seq<byte>, out: nat -> Outcome)
    requires Has(w.recv, r, id) && X(w.recv, r, id).file in w.data && w.recv[r].pc.Idle? && !out(0).TakenOver?
    requires var b := X(w.recv, r, id).buf; off != b.cursor || off + |bytes| > b.size
    ensures var t, w1 := X(w.recv, r, id), Next(w, ChunkIn(r, id, off, bytes, out(0)));
            var e := Chunk(t.buf, w.data[t.file], off, bytes, out);
            Left(w, w1, r, id, e, ChunkPc(id, e.status))
  {
    var t := X(w.recv, r, id);
    assert w.data[t.file := w.data[t.file]] == w.data && w.recv[r].transfers[id := t] == w.recv[r].transfers;
    assert w.recv[r := Receiver(w.recv[r].transfers, Idle)] == w.recv;
  }

  /** The steps of a holder that gets a chunk, in whatever order and with whatever
      fate of its writes, come to what Reassembly makes of it, on the transfer and
      on the file, and to nothing else. */
  lemma ChunkOutcome(w: World, r: Rid, id: Id, off: nat, bytes: seq<byte>, out: nat -> Outcome) returns (ss: seq<Step>)
    requires Inv(w) && Holder(w, r, id) && w.recv[r].pc.Idle? && forall j :: !out(j).TakenOver?
    ensures var t := X(w.recv, r, id);
            && t.file in w.data
            && var e := Chunk(t.buf, w.data[t.file], off, bytes, out);
               ValidRun(w, ss) && OwnSteps(ss, r) && Left(w, After(w, ss), r, id, e, ChunkPc(id, e.status))
  {
    var b := X(w.recv, r, id).buf;
    assert TransferOk(w, r, id);
    if off == b.cursor && off + |bytes| <= b.size {
      ss := CursorSteps(w, r, id, bytes, out);
    } else {
      OtherChunk(w, r, id, off, bytes, out);
      ss := [ChunkIn(r, id, off, bytes, out(0))];
      RunCons(w, ss[0], []);
    }
  }

  /** A superseded transfer that gets its next chunk writes nothing and is on its way out. */
  lemma SupersededChunk(w: World, r: Rid, id: Id, bytes: seq<byte>, out: Outcome)
    requires Inv(w) && Has(w.recv, r, id) && !Holder(w, r, id) && w.recv[r].pc.Idle? && !out.TakenOver?
    requires X(w.recv, r, id).buf.cursor + |bytes| <= X(w.recv, r, id).buf.size
    ensures var t := X(w.recv, r, id);
            && t.file in w.data
            && var e := Chunk(t.buf, w.data[t.file], t.buf.cursor, bytes, k => TakenOver);
               e.status == Superseded
               && Left(w, Next(w, ChunkIn(r, id, t.buf.cursor, bytes, out)), r, id, e, ChunkPc(id, e.status))
  {
    var t := X(w.recv, r, id);
    assert TransferOk(w, r, id);
    assert w.data[t.file := w.data[t.file]] == w.data;
  }
}
