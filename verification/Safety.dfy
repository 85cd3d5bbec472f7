/**
 * What holds over every interleaving of any number of receivers: who may
 * change a .partial, when a claim changes hands, and what a refused INIT or a
 * superseded transfer can do to others.
 */
module Safety {
  import opened Prelude
  import opened Reassembly
  import opened Admission
  import opened Receivers
  import opened Custody
  import opened Ownership
  import opened Registration

  // ---- every reachable world ---------------------------------------------

  lemma TickStepInv(w: World, s: Step)
    requires Inv(w) && Enabled(w, s) && s.Tick?
    ensures Inv(Next(w, s))
  {
    InertInv(w, Next(w, s));
  }

  lemma InitCheckStepInv(w: World, s: Step)
    requires Inv(w) && Enabled(w, s) && s.InitCheck?
    ensures Inv(Next(w, s))
  {
    InitCheckInv(w, s.r, s.id, s.size, s.hash, s.lim);
  }

  lemma InitClaimStepInv(w: World, s: Step)
    requires Inv(w) && Enabled(w, s) && s.InitClaim?
    ensures Inv(Next(w, s))
  {
    InitClaimInv(w, s.r, s.lim);
  }

  lemma InitFinishStepInv(w: World, s: Step)
    requires Inv(w) && Enabled(w, s) && s.InitFinish?
    ensures Inv(Next(w, s))
  {
    InitFinishInv(w, s.r, s.openOk, s.statOk, s.truncOk);
  }

  lemma DoneStepInv(w: World, s: Step)
    requires Inv(w) && Enabled(w, s) && (s.DoneIn? || s.HashRead? || s.Prepare? || s.Rename? || s.Commit?)
    ensures Inv(Next(w, s))
  {
    match s
    case DoneIn(r, id, syncOk) => DoneInv(w, r, id, syncOk);
    case HashRead(r, n, readOk) => HashReadInv(w, r, n, readOk);
    case Prepare(r, ok) => PrepareInv(w, r, ok);
    case Rename(r, ok) => RenameInv(w, r, ok);
    case Commit(r, ok, removeOk) => CommitInv(w, r, ok, removeOk);
  }

  lemma EndStepInv(w: World, s: Step)
    requires Inv(w) && Enabled(w, s) && (s.Abandon? || s.FinishDiscard? || s.Drop?)
    ensures Inv(Next(w, s))
  {
    match s
    case Abandon(r) => AbandonInv(w, r);
    case FinishDiscard(r) => DiscardInv(w, r, w.recv[r].pc.id);
    case Drop(r, id) => DiscardInv(w, r, id);
  }

  lemma StepInv(w: World, s: Step)
    requires Inv(w) && Enabled(w, s)
    ensures Inv(Next(w, s))
  {
    if s.ChunkIn? || s.DrainOne? { ChunkInv(w, s); }
    else if s.DoneIn? || s.HashRead? || s.Prepare? || s.Rename? || s.Commit? { DoneStepInv(w, s); }
    else if s.Abandon? || s.FinishDiscard? || s.Drop? { EndStepInv(w, s); }
    else if s.InitCheck? { InitCheckStepInv(w, s); }
    else if s.InitClaim? { InitClaimStepInv(w, s); }
    else if s.InitFinish? { InitFinishStepInv(w, s); }
    else { TickStepInv(w, s); }
  }

  lemma {:induction false} RunInv(w: World, ss: seq<Step>)
    requires Inv(w) && ValidRun(w, ss)
    ensures Inv(After(w, ss))
    decreases |ss|
  {
    if ss != [] {
      StepInv(w, ss[0]);
      RunInv(Next(w, ss[0]), ss[1..]);
    }
  }

  /** The invariant holds in every world a fresh process can reach. */
  lemma ReachableInv(w: World, ss: seq<Step>)
    requires Initial(w) && ValidRun(w, ss)
    ensures Inv(After(w, ss))
  {
    InitialInv(w);
    RunInv(w, ss);
  }

  lemma {:induction false} ReceiversStay(w: World, ss: seq<Step>)
    requires ValidRun(w, ss)
    ensures After(w, ss).recv.Keys == w.recv.Keys
    decreases |ss|
  {
    if ss != [] { ReceiversStay(Next(w, ss[0]), ss[1..]); }
  }

  // ---- one writer per .partial -------------------------------------------

  /** The .partial that step s may write, truncate, rename or delete. */
  ghost predicate Touches(w: World, s: Step, p: Path)
    requires Enabled(w, s)
  {
    match s
    case ChunkIn(r, id, _, _, _) => TouchesOwn(w, r, id, p)
    case DrainOne(r, _) => TouchesOwn(w, r, w.recv[r].pc.id, p)
    case Rename(r, _) => TouchesOwn(w, r, w.recv[r].pc.id, p)
    case Abandon(r) => TouchesOwn(w, r, w.recv[r].pc.id, p)
    case FinishDiscard(r) => TouchesOwn(w, r, w.recv[r].pc.id, p)
    case Drop(r, id) => TouchesOwn(w, r, id, p)
    case InitFinish(r, _, _, _) => p == w.recv[r].pc.job.partial
    case _ => false
  }

  ghost predicate TouchesOwn(w: World, r: Rid, id: Id, p: Path) {
    Has(w.recv, r, id) && X(w.recv, r, id).partial == p && Holds(w, p, X(w.recv, r, id).claim)
  }

  ghost predicate SameFile(w: World, w': World, p: Path) {
    && (p in w.dir <==> p in w'.dir)
    && (p in w.dir ==> w'.dir[p] == w.dir[p])
    && (p in w.dir && w.dir[p] in w.data ==> w.dir[p] in w'.data && w'.data[w.dir[p]] == w.data[w.dir[p]])
  }

  lemma WriteTouches(w: World, r: Rid, id: Id, b: Buf, bytes: seq<byte>, out: Outcome, p: Path)
    requires Inv(w) && Has(w.recv, r, id) && !p.Final? && !TouchesOwn(w, r, id, p)
    requires !Leaving(w.recv[r].pc, id)
    ensures SameFile(w, Write(w, r, id, b, bytes, out), p)
  {
    assert TransferOk(w, r, id) && GuardedOne(w, r, id);
  }

  lemma RegisterLeavesOthers(w: World, r: Rid, statOk: bool, truncOk: bool, p: Path)
    requires r in w.recv && w.recv[r].pc.Claimed?
    requires var q := w.recv[r].pc.job.partial; p in w.dir && q in w.dir ==> w.dir[p] != w.dir[q]
    ensures SameFile(w, Register(w, r, statOk, truncOk), p)
  {
  }

  lemma FailLeavesOthers(w: World, r: Rid, p: Path)
    requires r in w.recv && w.recv[r].pc.Claimed? && p != w.recv[r].pc.job.partial
    ensures SameFile(w, FailInit(w, r), p)
  {
  }

  lemma OpenLeavesOthers(w: World, q: Path, p: Path)
    requires Files(w) && p != q
    ensures SameFile(w, OpenFile(w, q), p) && (p in w.dir ==> OpenFile(w, q).dir[p] != OpenFile(w, q).dir[q])
    ensures p in w.dir ==> w.dir[p] in w.data
  {
  }

  lemma FinishLeavesOthers(w: World, r: Rid, openOk: bool, statOk: bool, truncOk: bool, p: Path)
    requires Files(w) && r in w.recv && w.recv[r].pc.Claimed? && p != w.recv[r].pc.job.partial
    ensures SameFile(w, AfterInitFinish(w, r, openOk, statOk, truncOk), p)
  {
    var w1 := OpenFile(w, w.recv[r].pc.job.partial);
    OpenLeavesOthers(w, w.recv[r].pc.job.partial, p);
    FailLeavesOthers(w, r, p);
    FailLeavesOthers(w1, r, p);
    RegisterLeavesOthers(w1, r, statOk, truncOk, p);
  }

  lemma InitFinishTouches(w: World, s: Step, p: Path)
    requires Inv(w) && Enabled(w, s) && s.InitFinish? && !Touches(w, s, p)
    ensures SameFile(w, Next(w, s), p)
  {
    FinishLeavesOthers(w, s.r, s.openOk, s.statOk, s.truncOk, p);
  }

  lemma ChunkTouches(w: World, s: Step, p: Path)
    requires Inv(w) && Enabled(w, s) && !p.Final? && !Touches(w, s, p) && (s.ChunkIn? || s.DrainOne?)
    ensures SameFile(w, Next(w, s), p)
  {
    assert PcOk(w, s.r);
    var id := if s.ChunkIn? then s.id else w.recv[s.r].pc.id;
    if Has(w.recv, s.r, id) {
      var b := X(w.recv, s.r, id).buf;
      if s.ChunkIn? {
        WriteTouches(w, s.r, id, b, s.bytes, s.out, p);
      } else if b.cursor in b.pending {
        WriteTouches(w, s.r, id, TakeNext(b), b.pending[b.cursor], s.out, p);
      }
    }
  }

  lemma EndTouches(w: World, s: Step, p: Path)
    requires Inv(w) && Enabled(w, s) && !p.Final? && !Touches(w, s, p)
    requires s.Abandon? || s.FinishDiscard? || s.Drop?
    ensures SameFile(w, Next(w, s), p)
  {
    assert TransferOk(w, s.r, if s.Drop? then s.id else w.recv[s.r].pc.id);
  }

  lemma RenameTouches(w: World, s: Step, p: Path)
    requires Inv(w) && Enabled(w, s) && !p.Final? && !Touches(w, s, p) && s.Rename?
    ensures SameFile(w, Next(w, s), p)
  {
  }

  lemma CommitTouches(w: World, s: Step, p: Path)
    requires Enabled(w, s) && s.Commit? && PcOk(w, s.r) && !p.Final?
    ensures SameFile(w, Next(w, s), p)
  {
  }

  /** A step changes no .partial but the one it is entitled to. */
  lemma StepTouches(w: World, s: Step, p: Path)
    requires Inv(w) && Enabled(w, s) && !p.Final? && !Touches(w, s, p)
    ensures SameFile(w, Next(w, s), p)
  {
    if s.ChunkIn? || s.DrainOne? { ChunkTouches(w, s, p); }
    else if s.Commit? { CommitTouches(w, s, p); }
    else if s.Rename? { RenameTouches(w, s, p); }
    else if s.Abandon? || s.FinishDiscard? || s.Drop? { EndTouches(w, s, p); }
    else if s.InitFinish? { InitFinishTouches(w, s, p); }
  }

  /** The claim on p is receiver r's: of a transfer it registered, or of the INIT it is handling. */
  ghost predicate ClaimIsOf(w: World, r: Rid, p: Path) {
    && p in w.claims
    && ((exists id :: Has(w.recv, r, id) && X(w.recv, r, id).claim == w.claims[p]) || Claimer(w.recv, r, w.claims[p]))
  }

  /** Whoever changes a .partial is the receiver the claim table names for it. */
  lemma TouchNeedsClaim(w: World, s: Step, p: Path)
    requires Inv(w) && Enabled(w, s) && Touches(w, s, p)
    ensures ClaimIsOf(w, s.r, p)
  {
    if s.InitFinish? {
      var pc := w.recv[s.r].pc;
      assert PcOk(w, s.r);
      if pc.prior { assert TransferOk(w, s.r, pc.job.id); } else { assert Claimer(w.recv, s.r, pc.token); }
    }
  }

  lemma ClaimHasOneReceiver(w: World, r: Rid, q: Rid, p: Path)
    requires Inv(w) && ClaimIsOf(w, r, p) && ClaimIsOf(w, q, p)
    ensures r == q
  {
  }

  /** Over any run, two steps that could change the same .partial in the same
      world belong to one receiver, and no other step changes it. */
  lemma OneWriter(w: World, ss: seq<Step>, s: Step, u: Step, p: Path)
    requires Initial(w) && ValidRun(w, ss)
    requires Enabled(After(w, ss), s) && Enabled(After(w, ss), u) && !p.Final?
    ensures Touches(After(w, ss), s, p) && Touches(After(w, ss), u, p) ==> s.r == u.r
    ensures !Touches(After(w, ss), s, p) ==> SameFile(After(w, ss), Next(After(w, ss), s), p)
  {
    var v := After(w, ss);
    ReachableInv(w, ss);
    if Touches(v, s, p) {
      TouchNeedsClaim(v, s, p);
      if Touches(v, u, p) {
        TouchNeedsClaim(v, u, p);
        ClaimHasOneReceiver(v, s.r, u.r, p);
      }
    } else {
      StepTouches(v, s, p);
    }
  }

  /** Claims are one-to-one with their holders: two transfers never hold one
      path, and a claim nobody holds is stale, so it never blocks a retry. */
  lemma ClaimsOneToOne(w: World, ss: seq<Step>, p: Path)
    requires Initial(w) && ValidRun(w, ss)
    ensures var v := After(w, ss);
            && (forall r, id, q, i :: TouchesOwn(v, r, id, p) && TouchesOwn(v, q, i, p) ==> r == q && id == i)
            && (p in v.claims && (forall r :: !ClaimIsOf(v, r, p)) ==> !HeldLive(v, p))
  {
    var v := After(w, ss);
    ReachableInv(w, ss);
    if p in v.claims && HasOwner(v.recv, v.claims[p]) {
      if exists r, id :: Has(v.recv, r, id) && X(v.recv, r, id).claim == v.claims[p] {
        var r, id :| Has(v.recv, r, id) && X(v.recv, r, id).claim == v.claims[p];
        assert ClaimIsOf(v, r, p);
      } else {
        var r :| Claimer(v.recv, r, v.claims[p]);
        assert ClaimIsOf(v, r, p);
      }
    }
  }
}
