/**
 * Claims that belong to no transfer and no INIT: exactly when one arises and
 * when it goes, and runs of a fresh process in which a refused INIT costs the
 * holder its transfer or leaves such a claim behind, and in which a superseded
 * transfer takes back the file it had put in place.
 */
module Orphans {
  import opened Prelude
  import opened Reassembly
  import opened Admission
  import opened Receivers
  import opened Custody
  import opened Ownership
  import opened Registration
  import opened Safety
  import opened Handover
  import opened Refusal
  import opened Finish

  // ---- when a claim loses its owner --------------------------------------

  /** s is the refusal, after its claim, of an INIT for path p whose predecessor has ended. */
  ghost predicate HandsToNobody(w: World, s: Step, p: Path)
    requires Enabled(w, s)
  {
    && s.InitFinish? && !s.openOk
    && var pc := w.recv[s.r].pc;
    && !pc.prior && pc.job.partial == p && pc.prev.Some? && !HasOwner(w.recv, pc.prev.value)
  }

  lemma OwnerKept(w: World, w': World, r: Rid, c: Token)
    requires Alone(w, w', r) && r in w.recv && HasOwner(w.recv, c)
    requires forall id :: Owns(w.recv, r, id, c) ==> HasOwner(w'.recv, c)
    requires Claimer(w.recv, r, c) ==> HasOwner(w'.recv, c)
    ensures HasOwner(w'.recv, c)
  {
    if exists q, id :: Has(w.recv, q, id) && X(w.recv, q, id).claim == c {
      var q, id :| Has(w.recv, q, id) && X(w.recv, q, id).claim == c;
      assert Owns(w.recv, q, id, c);
      if q != r { OwnsIsOwner(w'.recv, q, id, c); }
    } else {
      var q :| Claimer(w.recv, q, c);
      assert q != r ==> Claimer(w'.recv, q, c);
    }
  }

  /** A transfer under the claim of a path holds that path. */
  lemma OwnerHolds(w: World, r: Rid, id: Id, p: Path)
    requires Inv(w) && p in w.claims && Owns(w.recv, r, id, w.claims[p])
    ensures X(w.recv, r, id).partial == p && Holds(w, p, w.claims[p]) && !LostClaim(w, r, id)
  {
    assert TransferOk(w, r, id);
  }

  lemma InitCheckKeepsOwner(w: World, s: Step, p: Path)
    requires Inv(w) && Enabled(w, s) && s.InitCheck? && p in w.claims && HasOwner(w.recv, w.claims[p])
    ensures HasOwner(Next(w, s).recv, w.claims[p])
  {
    var w', c := Next(w, s), w.claims[p];
    forall id | Owns(w.recv, s.r, id, c) ensures HasOwner(w'.recv, c) {
      OwnerHolds(w, s.r, id, p);
      OwnsIsOwner(w'.recv, s.r, id, c);
    }
    OwnerKept(w, w', s.r, c);
  }

  lemma InitClaimKeepsOwner(w: World, s: Step, p: Path)
    requires Inv(w) && Enabled(w, s) && s.InitClaim? && p in w.claims && HasOwner(w.recv, w.claims[p])
    ensures HasOwner(Next(w, s).recv, w.claims[p])
  {
    var w', c := Next(w, s), w.claims[p];
    forall id | Owns(w.recv, s.r, id, c) ensures HasOwner(w'.recv, c) { OwnsIsOwner(w'.recv, s.r, id, c); }
    OwnerKept(w, w', s.r, c);
  }

  lemma ChunkKeepsOwner(w: World, s: Step, c: Token)
    requires Enabled(w, s) && (s.ChunkIn? || s.DrainOne?) && HasOwner(w.recv, c)
    ensures HasOwner(Next(w, s).recv, c)
  {
    var w' := Next(w, s);
    assert SameClaims(w.recv[s.r], w'.recv[s.r]);
    forall id | Owns(w.recv, s.r, id, c) ensures HasOwner(w'.recv, c) {
      OwnsIsOwner(w'.recv, s.r, id, c);
    }
    OwnerKept(w, w', s.r, c);
  }

  lemma DoneKeepsTable(w: World, s: Step)
    requires Enabled(w, s) && (s.DoneIn? || s.HashRead? || s.Prepare? || s.Rename? || s.Commit?)
    ensures Next(w, s).recv[s.r].transfers == w.recv[s.r].transfers && !w.recv[s.r].pc.Claimed?
  {
  }

  lemma DoneKeepsOwner(w: World, s: Step, c: Token)
    requires Enabled(w, s) && (s.DoneIn? || s.HashRead? || s.Prepare? || s.Rename? || s.Commit?) && HasOwner(w.recv, c)
    ensures HasOwner(Next(w, s).recv, c)
  {
    DoneKeepsTable(w, s);
    forall id | Owns(w.recv, s.r, id, c) ensures HasOwner(Next(w, s).recv, c) { OwnsIsOwner(Next(w, s).recv, s.r, id, c); }
    OwnerKept(w, Next(w, s), s.r, c);
  }

  lemma EndStep(w: World, s: Step) returns (id: Id)
    requires Enabled(w, s) && (s.Abandon? || s.FinishDiscard? || s.Drop?)
    ensures Has(w.recv, s.r, id) && Released(w, Next(w, s), X(w.recv, s.r, id)) && !w.recv[s.r].pc.Claimed?
    ensures Next(w, s).recv[s.r].transfers == w.recv[s.r].transfers - {id}
  {
    id := if s.Drop? then s.id else w.recv[s.r].pc.id;
  }

  /** The claim of a transfer that ends goes with it. */
  lemma EndKeepsOwner(w: World, s: Step, p: Path)
    requires Inv(w) && Enabled(w, s) && (s.Abandon? || s.FinishDiscard? || s.Drop?)
    requires p in w.claims && HasOwner(w.recv, w.claims[p]) && Holds(Next(w, s), p, w.claims[p])
    ensures HasOwner(Next(w, s).recv, w.claims[p])
  {
    var w', c := Next(w, s), w.claims[p];
    var i := EndStep(w, s);
    forall id | Owns(w.recv, s.r, id, c) ensures HasOwner(w'.recv, c) {
      OwnerHolds(w, s.r, id, p);
      OwnsIsOwner(w'.recv, s.r, id, c);
    }
    OwnerKept(w, w', s.r, c);
  }

  /** An INIT that opens its file registers its claim; claims do not change. */
  lemma RegisterKeepsOwner(w: World, s: Step, c: Token)
    requires Inv(w) && Enabled(w, s) && s.InitFinish? && s.openOk && HasOwner(w.recv, c)
    ensures Next(w, s).claims == w.claims && HasOwner(Next(w, s).recv, c)
  {
    OpenRegisters(w, s);
    RegisterPassesOn(w, Next(w, s), s.r, c);
  }

  lemma OpenRegisters(w: World, s: Step)
    requires Inv(w) && Enabled(w, s) && s.InitFinish? && s.openOk
    ensures Next(w, s).claims == w.claims && Owns(Next(w, s).recv, s.r, w.recv[s.r].pc.job.id, w.recv[s.r].pc.token)
    ensures var pc := w.recv[s.r].pc; pc.job.id in w.recv[s.r].transfers ==> w.recv[s.r].transfers[pc.job.id].claim == pc.token
  {
    var pc := w.recv[s.r].pc;
    assert PcOk(w, s.r);
    OpenInv(w, pc.job.partial, pc.token);
  }

  /** The claim an INIT took passes to the transfer it registers. */
  lemma RegisterPassesOn(w: World, w': World, r: Rid, c: Token)
    requires r in w.recv && w.recv[r].pc.Claimed? && r in w'.recv && Alone(w, w', r) && HasOwner(w.recv, c)
    requires var pc := w.recv[r].pc;
             && OthersKept(w.recv[r], w'.recv[r], pc.job.id) && Owns(w'.recv, r, pc.job.id, pc.token)
             && (pc.job.id in w.recv[r].transfers ==> w.recv[r].transfers[pc.job.id].claim == pc.token)
    ensures HasOwner(w'.recv, c)
  {
    forall id | Owns(w.recv, r, id, c) ensures HasOwner(w'.recv, c) { OwnsIsOwner(w'.recv, r, id, c); }
    if Claimer(w.recv, r, c) { OwnsIsOwner(w'.recv, r, w.recv[r].pc.job.id, c); }
    OwnerKept(w, w', r, c);
  }

  /** A refused INIT changes who has its own path only. */
  lemma RefusedOwner(w: World, s: Step, p: Path)
    requires Inv(w) && Enabled(w, s) && s.InitFinish? && !s.openOk && !Orphan(w, p)
    ensures Orphan(Next(w, s), p) <==> HandsToNobody(w, s, p)
  {
    var w', pc := Next(w, s), w.recv[s.r].pc;
    assert PcOk(w, s.r);
    if p in w'.claims {
      var c := w'.claims[p];
      NoneNewOwner(w, w', s.r, c);
      if HasOwner(w.recv, c) && !Claimer(w.recv, s.r, c) {
        forall id | Owns(w.recv, s.r, id, c) ensures HasOwner(w'.recv, c) { OwnsIsOwner(w'.recv, s.r, id, c); }
        OwnerKept(w, w', s.r, c);
      }
    }
  }

  lemma ClaimIsOwned(w: World, s: Step, p: Path)
    requires Inv(w) && Enabled(w, s) && s.InitClaim? && !Orphan(w, p)
    ensures !Orphan(Next(w, s), p)
  {
    var w' := Next(w, s);
    if p in w.claims { InitClaimKeepsOwner(w, s, p); }
    if ClaimsItself(w, w', s.r) { assert Claimer(w'.recv, s.r, w'.recv[s.r].pc.token); }
  }

  lemma InitOrphan(w: World, s: Step, p: Path)
    requires Inv(w) && Enabled(w, s) && (s.InitCheck? || s.InitClaim? || s.InitFinish?) && !Orphan(w, p)
    ensures Orphan(Next(w, s), p) <==> HandsToNobody(w, s, p)
  {
    if s.InitCheck? { if p in w.claims { InitCheckKeepsOwner(w, s, p); } }
    else if s.InitClaim? { ClaimIsOwned(w, s, p); }
    else if !s.openOk { RefusedOwner(w, s, p); }
    else { RegisterKeepsClaims(w, s, p); }
  }

  lemma RegisterKeepsClaims(w: World, s: Step, p: Path)
    requires Inv(w) && Enabled(w, s) && s.InitFinish? && s.openOk && !Orphan(w, p)
    ensures !Orphan(Next(w, s), p)
  {
    var pc := w.recv[s.r].pc;
    assert PcOk(w, s.r);
    if p in w.claims { RegisterKeepsOwner(w, s, w.claims[p]); }
    else { OpenInv(w, pc.job.partial, pc.token); }
  }

  /** Exactly when a claim comes to have no owner: an INIT that took the path
      over is refused after the transfer it took it from has ended. */
  lemma OrphanIff(w: World, s: Step, p: Path)
    requires Inv(w) && Enabled(w, s) && !Orphan(w, p)
    ensures Orphan(Next(w, s), p) <==> HandsToNobody(w, s, p)
  {
    if s.InitCheck? || s.InitClaim? || s.InitFinish? { InitOrphan(w, s, p); }
    else if s.Abandon? || s.FinishDiscard? || s.Drop? {
      var i := EndStep(w, s);
      if p in Next(w, s).claims { EndKeepsOwner(w, s, p); }
    }
    else if s.ChunkIn? || s.DrainOne? { if p in w.claims { ChunkKeepsOwner(w, s, w.claims[p]); } }
    else if !s.Tick? && p in w.claims { DoneKeepsOwner(w, s, w.claims[p]); }
  }

  /** And exactly when it has one again: the next INIT for the path that passes
      its checks claims it. */
  lemma OrphanEndsIff(w: World, s: Step, p: Path)
    requires Inv(w) && Enabled(w, s) && Orphan(w, p)
    ensures !Orphan(Next(w, s), p) <==> s.InitClaim? && w.recv[s.r].pc.job.partial == p
  {
    var c := w.claims[p];
    assert c in w.home && c < w.nextToken;
    NeverOwnedAgain(w, s, c);
    if s.InitClaim? && w.recv[s.r].pc.job.partial == p {
      assert !HeldLive(w, p);
      assert Claimer(Next(w, s).recv, s.r, w.nextToken);
    } else if s.InitClaim? {
      InitClaimClaims(w, s, p);
    } else {
      OrphanIsNobodys(w, s, p);
      StepClaims(w, s, p);
    }
  }

  lemma OrphanIsNobodys(w: World, s: Step, p: Path)
    requires Orphan(w, p)
    ensures !s.Tick? ==> !ClaimIsOf(w, s.r, p)
  {
  }

  // ---- runs of a fresh process -------------------------------------------

  lemma {:induction false} RunAppend(w: World, ss: seq<Step>, s: Step)
    requires ValidRun(w, ss) && Enabled(After(w, ss), s)
    ensures ValidRun(w, ss + [s]) && After(w, ss + [s]) == Next(After(w, ss), s)
    decreases |ss|
  {
    if ss == [] {
      assert ss + [s] == [s] && [s][1..] == [];
    } else {
      RunAppend(Next(w, ss[0]), ss[1..], s);
      assert (ss + [s])[1..] == ss[1..] + [s];
    }
  }

  const A: Rid := 0
  const B: Rid := 1
  const ID: Id := 7
  const FREE: Limits := Limits(0, 0, None)

  /** The INIT of an empty file. */
  ghost function JobIn(w: World): Job { Job(ID, 0, w.sha([]), Shared(ID), -1) }

  ghost function InitOf(w: World, r: Rid): Step { InitCheck(r, ID, 0, w.sha([]), FREE) }

  ghost function Fresh(sha: seq<byte> -> Digest): World {
    World(sha, 0, map[], map[], map[], map[], map[], map[A := Receiver(map[], Idle), B := Receiver(map[], Idle)],
          map[], 0, 0, 0)
  }

  /** Without a quota it passes its checks. */
  lemma Checks(w: World, r: Rid)
    requires r in w.recv && w.recv[r] == Receiver(map[], Idle) && !HeldLive(w, Shared(ID))
    ensures Next(w, InitOf(w, r)) == SetPc(w, r, Checked(JobIn(w)))
  {
  }

  lemma Claims(w: World, r: Rid)
    requires r in w.recv && w.recv[r] == Receiver(map[], Checked(JobIn(w))) && !HeldLive(w, Shared(ID))
    ensures Next(w, InitClaim(r, FREE)) == TakeClaim(w, r, JobIn(w))
  {
  }

  /** The transfer it registers, of a file that is complete from the start. */
  ghost function EmptyTransfer(w: World, file: Inode, tok: Token): Transfer {
    Transfer(file, Shared(ID), tok, w.sha([]), Buf(0, 0, map[], 0, -1))
  }

  lemma Opens(w: World, r: Rid, tok: Token)
    requires r in w.recv && w.recv[r] == Receiver(map[], Claimed(JobIn(w), tok, None, false)) && Live(w, tok)
    requires Shared(ID) !in w.dir && Holds(w, Shared(ID), tok)
    ensures var v, t := Next(w, InitFinish(r, true, true, true)), EmptyTransfer(w, w.nextInode, tok);
            && Finishing(v, r, ID, t, [], Idle) && v.claims == w.claims && v.last == w.last && Alone(w, v, r)
  {
  }

  /** A's claim 0 is fresh at time 0, B has nothing. */
  ghost predicate Calm(v: World) {
    && Get(v.claims, Shared(ID)) == Some(0) && Get(v.last, 0) == Some(0) && v.now == 0
    && B in v.recv && v.recv[B] == Receiver(map[], Idle)
  }

  /** And A has its transfer. */
  ghost predicate Staged(v: World) {
    Calm(v) && Finishing(v, A, ID, EmptyTransfer(v, 0, 0), [], Idle)
  }

  /** Receiver A is sent an INIT and registers a transfer. */
  lemma RegisterA(sha: seq<byte> -> Digest) returns (ss: seq<Step>)
    ensures Initial(Fresh(sha)) && ValidRun(Fresh(sha), ss) && Staged(After(Fresh(sha), ss))
  {
    var w0 := Fresh(sha);
    var s1, s2, s3 := InitOf(w0, A), InitClaim(A, FREE), InitFinish(A, true, true, true);
    Checks(w0, A);
    RunAppend(w0, [], s1);
    var w1 := SetPc(w0, A, Checked(JobIn(w0)));
    Claims(w1, A);
    RunAppend(w0, [] + [s1], s2);
    var w2 := TakeClaim(w1, A, JobIn(w0));
    Opens(w2, A, 0);
    RunAppend(w0, [] + [s1] + [s2], s3);
    ss := [] + [s1] + [s2] + [s3];
  }

  /** A's claim is stale and its path can be taken. */
  ghost predicate Ripe(v: World) {
    Get(v.claims, Shared(ID)) == Some(0) && !Live(v, 0) && A in v.recv && B in v.recv
  }

  lemma WaitStep(w: World)
    requires Calm(w) && A in w.recv
    ensures var v := Next(w, Tick(120)); Ripe(v) && v == w.(now := 120)
  {
  }

  lemma CheckStep(w: World)
    requires Ripe(w) && w.recv[B] == Receiver(map[], Idle)
    ensures var v := Next(w, InitOf(w, B)); Ripe(v) && v == SetPc(w, B, Checked(JobIn(w)))
  {
    Checks(w, B);
  }

  lemma ClaimStep(w: World)
    requires Ripe(w) && w.recv[B] == Receiver(map[], Checked(JobIn(w)))
    ensures var v := Next(w, InitClaim(B, FREE));
            v == TakeClaim(w, B, JobIn(w)) && v.recv[A] == w.recv[A] && Suspends(v, B, 0)
  {
    Claims(w, B);
  }

  /** 120 seconds later receiver B is sent an INIT for the same content and claims the path. */
  lemma TakeByB(w: World, ss: seq<Step>) returns (more: seq<Step>)
    requires ValidRun(w, ss) && Calm(After(w, ss)) && A in After(w, ss).recv
    ensures ValidRun(w, more)
    ensures var u, v := After(w, ss), After(w, more);
            && A in v.recv && v.recv[A] == u.recv[A] && Suspends(v, B, 0)
            && v.dir == u.dir && v.data == u.data && v.saved == u.saved && v.claims == u.claims[Shared(ID) := u.nextToken]
  {
    var w0 := After(w, ss);
    var s1, s2, s3 := Tick(120), InitOf(w0, B), InitClaim(B, FREE);
    WaitStep(w0);
    RunAppend(w, ss, s1);
    CheckStep(Next(w0, s1));
    RunAppend(w, ss + [s1], s2);
    ClaimStep(Next(Next(w0, s1), s2));
    RunAppend(w, ss + [s1] + [s2], s3);
    more := ss + [s1] + [s2] + [s3];
  }

  /** One step of A, then the refusal of B's INIT. */
  lemma OneStepThenRefused(w: World, ss: seq<Step>, s: Step) returns (all: seq<Step>)
    requires Initial(w) && ValidRun(w, ss)
    requires var v := After(w, ss); Owns(v.recv, A, ID, 0) && Suspends(v, B, 0)
    requires Enabled(After(w, ss), s) && (s == DoneIn(A, ID, true) || s == Drop(A, ID))
    ensures ValidRun(w, all) && |all| == |ss| + 2 && all[|ss|] == s && all[|ss| + 1] == InitFinish(B, false, true, true)
    ensures var v, u := After(w, ss), After(w, all);
            && Holds(u, Shared(ID), 0)
            && (!Ending(v.recv[A].pc, ID) ==> (Keeps(u.recv, A, ID, 0) <==> !Spoils(v, s, A, ID)))
            && (Orphan(u, Shared(ID)) <==> Drops(v, s, ID))
  {
    var v, r := After(w, ss), InitFinish(B, false, true, true);
    ReachableInv(w, ss);
    assert TransferOk(v, A, ID) && PcOk(v, B);
    BetweenOne(v, s, B, v.recv[B].pc.token);
    RefusalOutcome(v, [s], A, ID, B, true, true);
    RunAppend(w, ss, s);
    RunAppend(w, ss + [s], r);
    all := ss + [s] + [r];
  }

  lemma BetweenOne(w: World, s: Step, b: Rid, tok: Token)
    requires Enabled(w, s) && (s.DoneIn? || s.Drop?) && s.r != b && Live(w, tok)
    ensures Between(w, [s], b, tok) && ValidRun(w, [s])
    ensures forall a, id :: Has(w.recv, a, id) ==> (Spoiled(w, [s], a, id) <==> Spoils(w, s, a, id))
    ensures forall a, id :: DroppedIn(w, [s], a, id) <==> s.r == a && Drops(w, s, id)
    ensures After(w, [s]) == Next(w, s)
  {
    StillLive(w, s, tok);
    assert [s][1..] == [];
  }

  lemma StillLive(w: World, s: Step, tok: Token)
    requires Enabled(w, s) && (s.DoneIn? || s.Drop?) && Live(w, tok)
    ensures Live(Next(w, s), tok)
  {
  }

  /** A fresh process can get there: the holder's DONE falls between the claim
      and the refusal, and its transfer is lost although the INIT was refused. */
  lemma HolderCanLose(sha: seq<byte> -> Digest) returns (ss: seq<Step>)
    ensures Initial(Fresh(sha)) && ValidRun(Fresh(sha), ss) && ss != [] && ss[|ss| - 1] == InitFinish(B, false, true, true)
    ensures var v := After(Fresh(sha), ss);
            Holds(v, Shared(ID), 0) && !Keeps(v.recv, A, ID, 0) && !Orphan(v, Shared(ID))
  {
    var w := Fresh(sha);
    ss := RegisterA(sha);
    ss := TakeByB(w, ss);
    ss := OneStepThenRefused(w, ss, DoneIn(A, ID, true));
  }

  /** And the holder's connection may close in between: the claim handed back
      then belongs to nobody. */
  lemma ClaimCanBeOrphaned(sha: seq<byte> -> Digest) returns (ss: seq<Step>)
    ensures Initial(Fresh(sha)) && ValidRun(Fresh(sha), ss) && ss != [] && ss[|ss| - 1] == InitFinish(B, false, true, true)
    ensures Orphan(After(Fresh(sha), ss), Shared(ID))
  {
    var w := Fresh(sha);
    ss := RegisterA(sha);
    ss := TakeByB(w, ss);
    ss := OneStepThenRefused(w, ss, Drop(A, ID));
  }

  // ---- a commit that fails after a takeover ------------------------------

  /** A step of A that leaves the claims alone and at most refreshes A's own. */
  lemma CalmFrom(w: World, w': World)
    requires Calm(w) && Alone(w, w', A) && w'.claims == w.claims && (w'.last == w.last || w'.last == w.last[0 := w.now])
    ensures Calm(w')
  {
  }

  lemma CalmDone(w: World, t: Transfer)
    requires Calm(w) && t.claim == 0 && t.buf.cursor == t.buf.size && Finishing(w, A, ID, t, [], Idle)
    ensures Calm(Next(w, DoneIn(A, ID, true)))
  {
    var w' := Next(w, DoneIn(A, ID, true));
    assert w' == RefreshPc(w, 0, A, Verifying(ID, []));
    CalmFrom(w, w');
  }

  lemma CalmRead(w: World, t: Transfer)
    requires Calm(w) && t.claim == 0 && Finishing(w, A, ID, t, [], Verifying(ID, []))
    ensures Calm(Next(w, HashRead(A, 1, true)))
  {
    var w' := Next(w, HashRead(A, 1, true));
    assert w' == RefreshPc(w, 0, A, Verified(ID, []));
    CalmFrom(w, w');
  }

  lemma CalmRename(w: World, t: Transfer)
    requires Calm(w) && t.claim == 0 && Finishing(w, A, ID, t, [], Prepared(ID, []))
    ensures Calm(Next(w, Step.Rename(A, true)))
  {
    var w' := Next(w, Step.Rename(A, true));
    assert w' == Install(w, A, ID, t, []);
    CalmFrom(w, w');
  }

  /** A goes on to the rename. */
  lemma RenameByA(w: World, ss: seq<Step>) returns (more: seq<Step>)
    requires ValidRun(w, ss) && Staged(After(w, ss))
    ensures ValidRun(w, more)
    ensures var u, v := After(w, ss), After(w, more);
            var f := Final(u.nextName);
            Calm(v) && InPlace(v, A, ID, EmptyTransfer(u, 0, 0), [], f, Renamed(ID, f))
  {
    var w0 := After(w, ss);
    var t := EmptyTransfer(w0, 0, 0);
    var s1, s2, s3, s4 := DoneIn(A, ID, true), HashRead(A, 1, true), Prepare(A, true), Step.Rename(A, true);
    DoneStep(w0, A, ID, t, []);
    CalmDone(w0, t);
    RunAppend(w, ss, s1);
    var w1 := Next(w0, s1);
    ReadStep(w1, A, ID, t, [], [], 1);
    CalmRead(w1, t);
    RunAppend(w, ss + [s1], s2);
    var w2 := Next(w1, s2);
    PrepareStep(w2, A, ID, t, []);
    CalmFrom(w2, Next(w2, s3));
    RunAppend(w, ss + [s1] + [s2], s3);
    var w3 := Next(w2, s3);
    RenameStep(w3, A, ID, t, []);
    CalmRename(w3, t);
    RunAppend(w, ss + [s1] + [s2] + [s3], s4);
    more := ss + [s1] + [s2] + [s3] + [s4];
  }

  /** A run of a fresh process in which a superseded transfer takes a file away:
      it renamed its file, went quiet, lost its claim to a retry, and then its
      commit fails. */
  lemma SupersededCanTakeBack(sha: seq<byte> -> Digest) returns (ss: seq<Step>, f: Path)
    ensures Initial(Fresh(sha)) && ValidRun(Fresh(sha), ss) && ValidRun(Fresh(sha), ss + [Commit(A, false, true)])
    ensures var u, v := After(Fresh(sha), ss), After(Fresh(sha), ss + [Commit(A, false, true)]);
            && Enabled(u, Commit(A, false, true)) && LostClaim(u, A, ID) && ActsOn(u, Commit(A, false, true), ID)
            && f in u.dir && f in u.saved && f !in v.dir && f !in v.saved
  {
    var w := Fresh(sha);
    ss := RegisterA(sha);
    f := Final(After(w, ss).nextName);
    ss := RenameByA(w, ss);
    ReachableInv(w, ss);
    ss := TakeByB(w, ss);
    RunAppend(w, ss, Commit(A, false, true));
  }
}
