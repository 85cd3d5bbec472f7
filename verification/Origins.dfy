/**
 * Where everything comes from: over any run, what a receiver works on and what
 * ends up installed was declared by an INIT of that run, and stays in bounds.
 */
module Origins {
  import opened Prelude
  import opened Reassembly
  import opened Admission
  import opened Receivers
  import opened Custody
  import opened Safety

  /** Some INIT of the run, at receiver r, declared this id, size and digest. */
  ghost predicate Declared(ss: seq<Step>, r: Rid, id: Id, size: nat, hash: Digest) {
    exists k :: 0 <= k < |ss| && Declares(ss[k], r, id, size, hash)
  }

  ghost predicate Declares(s: Step, r: Rid, id: Id, size: nat, hash: Digest) {
    s.InitCheck? && s.r == r && s.id == id && s.size == size && s.hash == hash
  }

  /** The job in progress and every transfer of a receiver were declared to it. */
  ghost predicate OwnDeclared(rc: Receiver, ss: seq<Step>, r: Rid) {
    && (OfInit(rc.pc) ==> Declared(ss, r, rc.pc.job.id, rc.pc.job.size, rc.pc.job.hash))
    && forall id :: id in rc.transfers ==> Declared(ss, r, id, rc.transfers[id].buf.size, rc.transfers[id].hash)
  }

  ghost predicate AllDeclared(rs: Receivers, ss: seq<Step>) {
    forall r :: r in rs ==> OwnDeclared(rs[r], ss, r)
  }

  /** An installed file has the id and the digest of an INIT, and at least its size. */
  ghost predicate SavedFrom(s: Saved, ss: seq<Step>) {
    exists r, size: nat :: Declared(ss, r, s.id, size, s.hash) && size <= |s.bytes|
  }

  ghost predicate AllSavedFrom(saved: map<Path, Saved>, ss: seq<Step>) {
    forall f :: f in saved ==> SavedFrom(saved[f], ss)
  }

  // ---- longer runs declare more ------------------------------------------

  lemma DeclaredMore(ss: seq<Step>, s: Step, r: Rid, id: Id, size: nat, hash: Digest)
    requires Declared(ss, r, id, size, hash)
    ensures Declared(ss + [s], r, id, size, hash)
  {
    var k :| 0 <= k < |ss| && Declares(ss[k], r, id, size, hash);
    assert (ss + [s])[k] == ss[k];
  }

  lemma DeclaredNow(ss: seq<Step>, s: Step)
    requires s.InitCheck?
    ensures Declared(ss + [s], s.r, s.id, s.size, s.hash)
  {
    assert Declares((ss + [s])[|ss|], s.r, s.id, s.size, s.hash);
  }

  lemma OwnMore(rc: Receiver, ss: seq<Step>, s: Step, r: Rid)
    requires OwnDeclared(rc, ss, r)
    ensures OwnDeclared(rc, ss + [s], r)
  {
    if OfInit(rc.pc) { DeclaredMore(ss, s, r, rc.pc.job.id, rc.pc.job.size, rc.pc.job.hash); }
    forall id | id in rc.transfers ensures Declared(ss + [s], r, id, rc.transfers[id].buf.size, rc.transfers[id].hash) {
      DeclaredMore(ss, s, r, id, rc.transfers[id].buf.size, rc.transfers[id].hash);
    }
  }

  lemma SavedMore(saved: map<Path, Saved>, ss: seq<Step>, s: Step)
    requires AllSavedFrom(saved, ss)
    ensures AllSavedFrom(saved, ss + [s])
  {
    forall f | f in saved ensures SavedFrom(saved[f], ss + [s]) {
      assert SavedFrom(saved[f], ss);
      var r, size: nat :| Declared(ss, r, saved[f].id, size, saved[f].hash) && size <= |saved[f].bytes|;
      DeclaredMore(ss, s, r, saved[f].id, size, saved[f].hash);
    }
  }

  // ---- what each step leaves its receiver with ---------------------------

  /** rc' works on nothing that rc did not. */
  ghost predicate NothingNew(rc: Receiver, rc': Receiver) {
    && (OfInit(rc'.pc) ==> OfInit(rc.pc) && SameJob(rc'.pc.job, rc.pc.job))
    && forall id :: id in rc'.transfers ==>
         id in rc.transfers && rc'.transfers[id].buf.size == rc.transfers[id].buf.size
         && rc'.transfers[id].hash == rc.transfers[id].hash
  }

  lemma WriteNothingNew(w: World, r: Rid, id: Id, b: Buf, bytes: seq<byte>, out: Outcome)
    requires Has(w.recv, r, id) && b.size == X(w.recv, r, id).buf.size
    ensures NothingNew(w.recv[r], Write(w, r, id, b, bytes, out).recv[r])
  {
  }

  lemma ChunkNothingNew(w: World, s: Step)
    requires Enabled(w, s) && (s.ChunkIn? || s.DrainOne?)
    ensures NothingNew(w.recv[s.r], Next(w, s).recv[s.r])
  {
    var id := if s.ChunkIn? then s.id else w.recv[s.r].pc.id;
    if Has(w.recv, s.r, id) {
      var b := X(w.recv, s.r, id).buf;
      if s.ChunkIn? { WriteNothingNew(w, s.r, id, b, s.bytes, s.out); }
      else if b.cursor in b.pending { WriteNothingNew(w, s.r, id, TakeNext(b), b.pending[b.cursor], s.out); }
    }
  }

  lemma ClaimNothingNew(w: World, s: Step)
    requires Enabled(w, s) && s.InitClaim?
    ensures NothingNew(w.recv[s.r], Next(w, s).recv[s.r])
  {
  }

  lemma StepNothingNew(w: World, s: Step)
    requires Enabled(w, s) && !s.Tick? && !s.InitCheck? && !s.InitFinish?
    ensures NothingNew(w.recv[s.r], Next(w, s).recv[s.r])
  {
    if s.ChunkIn? || s.DrainOne? { ChunkNothingNew(w, s); }
    else if s.InitClaim? { ClaimNothingNew(w, s); }
  }

  /** The checks of an INIT take on its job, or none. */
  lemma CheckTakesJob(w: World, s: Step)
    requires Enabled(w, s) && s.InitCheck?
    ensures var pc := Next(w, s).recv[s.r].pc;
            OfInit(pc) ==> JobIs(pc.job, s.id, s.size, s.hash)
  {
  }

  /** A finished INIT registers its job, or nothing. */
  ghost predicate RegistersJob(rc: Receiver, rc': Receiver, job: Job) {
    && (OfInit(rc'.pc) ==> rc'.pc == rc.pc)
    && forall id :: id in rc'.transfers ==>
         || (id in rc.transfers && rc'.transfers[id] == rc.transfers[id])
         || (id == job.id && rc'.transfers[id].buf.size == job.size && rc'.transfers[id].hash == job.hash)
  }

  lemma RegisterRegisters(w: World, r: Rid, statOk: bool, truncOk: bool)
    requires r in w.recv && w.recv[r].pc.Claimed?
    ensures RegistersJob(w.recv[r], Register(w, r, statOk, truncOk).recv[r], w.recv[r].pc.job)
  {
  }

  lemma FailRegistersNone(w: World, r: Rid)
    requires r in w.recv && w.recv[r].pc.Claimed?
    ensures RegistersJob(w.recv[r], FailInit(w, r).recv[r], w.recv[r].pc.job)
  {
  }

  lemma FinishRegisters(w: World, s: Step)
    requires Enabled(w, s) && s.InitFinish?
    ensures RegistersJob(w.recv[s.r], Next(w, s).recv[s.r], w.recv[s.r].pc.job)
  {
    var w1 := OpenFile(w, w.recv[s.r].pc.job.partial);
    assert w1.recv == w.recv;
    FailRegistersNone(w, s.r);
    FailRegistersNone(w1, s.r);
    RegisterRegisters(w1, s.r, s.statOk, s.truncOk);
  }

  lemma NothingNewDeclared(rc: Receiver, rc': Receiver, ss: seq<Step>, r: Rid)
    requires OwnDeclared(rc, ss, r) && NothingNew(rc, rc')
    ensures OwnDeclared(rc', ss, r)
  {
  }

  lemma RegistersDeclared(rc: Receiver, rc': Receiver, ss: seq<Step>, r: Rid)
    requires OwnDeclared(rc, ss, r) && OfInit(rc.pc) && RegistersJob(rc, rc', rc.pc.job)
    ensures OwnDeclared(rc', ss, r)
  {
  }

  lemma CheckDeclared(w: World, s: Step, ss: seq<Step>)
    requires Enabled(w, s) && s.InitCheck? && OwnDeclared(w.recv[s.r], ss, s.r)
    ensures OwnDeclared(Next(w, s).recv[s.r], ss + [s], s.r)
  {
    DeclaredNow(ss, s);
    OwnMore(w.recv[s.r], ss, s, s.r);
    CheckTakesJob(w, s);
  }

  lemma StepOwnDeclared(w: World, s: Step, ss: seq<Step>)
    requires Enabled(w, s) && !s.Tick? && OwnDeclared(w.recv[s.r], ss, s.r)
    ensures OwnDeclared(Next(w, s).recv[s.r], ss + [s], s.r)
  {
    var rc, rc' := w.recv[s.r], Next(w, s).recv[s.r];
    if s.InitCheck? {
      CheckDeclared(w, s, ss);
    } else {
      if s.InitFinish? {
        FinishRegisters(w, s);
        RegistersDeclared(rc, rc', ss, s.r);
      } else {
        StepNothingNew(w, s);
        NothingNewDeclared(rc, rc', ss, s.r);
      }
      OwnMore(rc', ss, s, s.r);
    }
  }

  lemma StepDeclared(w: World, s: Step, ss: seq<Step>)
    requires Enabled(w, s) && AllDeclared(w.recv, ss)
    ensures AllDeclared(Next(w, s).recv, ss + [s])
  {
    var w' := Next(w, s);
    if !s.Tick? { StepOwnDeclared(w, s, ss); }
    forall r | r in w'.recv ensures OwnDeclared(w'.recv[r], ss + [s], r) {
      if s.Tick? || r != s.r { OwnMore(w.recv[r], ss, s, r); }
    }
  }

  // ---- what is installed -------------------------------------------------

  lemma InstallFrom(w: World, s: Step, ss: seq<Step>)
    requires Inv(w) && Enabled(w, s) && s.Rename? && AllDeclared(w.recv, ss) && AllSavedFrom(w.saved, ss)
    ensures AllSavedFrom(Next(w, s).saved, ss)
  {
    var id := w.recv[s.r].pc.id;
    var t, h := X(w.recv, s.r, id), w.recv[s.r].pc.hashed;
    assert PcOk(w, s.r) && GuardedOne(w, s.r, id) && OwnDeclared(w.recv[s.r], ss, s.r);
    if Holds(w, t.partial, t.claim) {
      assert Protected(w, s.r, id);
      assert Declared(ss, s.r, id, t.buf.size, t.hash) && t.buf.size <= |h|;
      assert SavedFrom(Saved(h, t.hash, id), ss);
    }
  }

  lemma StepSavedFrom(w: World, s: Step, ss: seq<Step>)
    requires Inv(w) && Enabled(w, s) && AllDeclared(w.recv, ss) && AllSavedFrom(w.saved, ss)
    ensures AllSavedFrom(Next(w, s).saved, ss + [s])
  {
    if s.Rename? { InstallFrom(w, s, ss); }
    SavedMore(Next(w, s).saved, ss, s);
  }

  lemma {:induction false} RunFrom(w: World, done: seq<Step>, ss: seq<Step>)
    requires Inv(w) && AllDeclared(w.recv, done) && AllSavedFrom(w.saved, done) && ValidRun(w, ss)
    ensures AllDeclared(After(w, ss).recv, done + ss) && AllSavedFrom(After(w, ss).saved, done + ss)
    decreases |ss|
  {
    if ss == [] {
      assert done + ss == done;
    } else {
      StepInv(w, ss[0]);
      StepDeclared(w, ss[0], done);
      StepSavedFrom(w, ss[0], done);
      RunFrom(Next(w, ss[0]), done + [ss[0]], ss[1..]);
      assert done + [ss[0]] + ss[1..] == done + ss;
    }
  }

  /** Whatever happens in a process, with any number of receivers: a transfer has
      the size and the digest that some INIT of its id declared to its receiver,
      and an installed file is there with the bytes whose digest some INIT of its
      id declared. */
  lemma AllFromInits(w: World, ss: seq<Step>, r: Rid, id: Id, f: Path)
    requires Initial(w) && ValidRun(w, ss)
    ensures var v := After(w, ss);
            && (Has(v.recv, r, id) ==> Declared(ss, r, id, X(v.recv, r, id).buf.size, X(v.recv, r, id).hash))
            && (f in v.saved ==>
                  && f in v.dir && v.dir[f] in v.data && v.data[v.dir[f]] == v.saved[f].bytes
                  && exists q, size: nat :: Declared(ss, q, v.saved[f].id, size, v.sha(v.saved[f].bytes)) && size <= |v.saved[f].bytes|)
  {
    InitialInv(w);
    ReachableInv(w, ss);
    RunFrom(w, [], ss);
    assert [] + ss == ss;
    var v := After(w, ss);
    if Has(v.recv, r, id) { assert OwnDeclared(v.recv[r], ss, r); }
    if f in v.saved { assert SavedFrom(v.saved[f], ss); }
  }

  // ---- bounds ------------------------------------------------------------

  /** The buffer of every transfer is in bounds, and out of a drain nothing in it is due. */
  ghost predicate OwnBounds(rc: Receiver) {
    forall id :: id in rc.transfers ==>
      DrainOk(rc.transfers[id].buf) && (rc.pc != Draining(id) ==> BufOk(rc.transfers[id].buf))
  }

  lemma SetBounds(rc: Receiver, id: Id, t: Transfer, pc: Pc)
    requires OwnBounds(rc) && Working(pc, id) && Working(rc.pc, id)
    requires DrainOk(t.buf) && (pc != Draining(id) ==> BufOk(t.buf))
    ensures OwnBounds(Receiver(rc.transfers[id := t], pc))
  {
  }

  lemma WriteBounds(w: World, r: Rid, id: Id, b: Buf, bytes: seq<byte>, out: Outcome)
    requires Has(w.recv, r, id) && OwnBounds(w.recv[r]) && Working(w.recv[r].pc, id)
    requires BufOk(b) && b.cursor + |bytes| <= b.size
    ensures OwnBounds(Write(w, r, id, b, bytes, out).recv[r])
  {
    var t, w' := X(w.recv, r, id), Write(w, r, id, b, bytes, out);
    SetBounds(w.recv[r], id, w'.recv[r].transfers[id], w'.recv[r].pc);
  }

  lemma HoldBounds(b: Buf, off: nat, bytes: seq<byte>)
    requires BufOk(b) && b.cursor < off && off + |bytes| <= b.size
    ensures BufOk(Hold(b, off, bytes))
  {
    if off !in b.pending { TotalLenAdd(b.pending, off, bytes); }
  }

  lemma ChunkBounds(w: World, s: Step)
    requires Enabled(w, s) && s.ChunkIn? && OwnBounds(w.recv[s.r])
    ensures OwnBounds(Next(w, s).recv[s.r])
  {
    if Has(w.recv, s.r, s.id) {
      var t := X(w.recv, s.r, s.id);
      if s.off + |s.bytes| <= t.buf.size {
        if s.off == t.buf.cursor { WriteBounds(w, s.r, s.id, t.buf, s.bytes, s.out); }
        else if s.off > t.buf.cursor {
          HoldBounds(t.buf, s.off, s.bytes);
          SetBounds(w.recv[s.r], s.id, t.(buf := Hold(t.buf, s.off, s.bytes)), Idle);
        }
      }
    }
  }

  lemma DrainBounds(w: World, s: Step)
    requires Enabled(w, s) && s.DrainOne? && OwnBounds(w.recv[s.r])
    ensures OwnBounds(Next(w, s).recv[s.r])
  {
    var id := w.recv[s.r].pc.id;
    if Has(w.recv, s.r, id) {
      var b := X(w.recv, s.r, id).buf;
      if b.cursor in b.pending {
        TakeNextKeeps(b);
        WriteBounds(w, s.r, id, TakeNext(b), b.pending[b.cursor], s.out);
      }
    }
  }

  lemma RegisterBounds(w: World, r: Rid, statOk: bool, truncOk: bool)
    requires r in w.recv && w.recv[r].pc.Claimed? && OwnBounds(w.recv[r])
    ensures OwnBounds(Register(w, r, statOk, truncOk).recv[r])
  {
  }

  lemma FinishBounds(w: World, s: Step)
    requires Enabled(w, s) && s.InitFinish? && OwnBounds(w.recv[s.r])
    ensures OwnBounds(Next(w, s).recv[s.r])
  {
    RegisterBounds(OpenFile(w, w.recv[s.r].pc.job.partial), s.r, s.statOk, s.truncOk);
  }

  lemma StepBounds(w: World, s: Step)
    requires Enabled(w, s) && !s.Tick? && OwnBounds(w.recv[s.r])
    ensures OwnBounds(Next(w, s).recv[s.r])
  {
    if s.ChunkIn? { ChunkBounds(w, s); }
    else if s.DrainOne? { DrainBounds(w, s); }
    else if s.InitFinish? { FinishBounds(w, s); }
    else { assert NoneNew(w, Next(w, s), s.r); }
  }

  lemma {:induction false} RunBounds(w: World, ss: seq<Step>, r: Rid)
    requires ValidRun(w, ss) && r in w.recv && OwnBounds(w.recv[r])
    ensures r in After(w, ss).recv && OwnBounds(After(w, ss).recv[r])
    decreases |ss|
  {
    if ss != [] {
      if !ss[0].Tick? && ss[0].r == r { StepBounds(w, ss[0]); }
      RunBounds(Next(w, ss[0]), ss[1..], r);
    }
  }

  /** What a peer can make a receiver hold, whatever it sends and whatever fails:
      at most 64 transfers, each with its cursor within the declared size and with
      at most 768 KiB buffered, which is what the transfer counts. */
  lemma HoldsBounded(w: World, ss: seq<Step>, r: Rid, id: Id)
    requires Initial(w) && ValidRun(w, ss) && Has(After(w, ss).recv, r, id)
    ensures var v := After(w, ss);
            var b := X(v.recv, r, id).buf;
            && |v.recv[r].transfers| <= 64
            && b.cursor <= b.size && b.pendBytes == TotalLen(b.pending) <= 768 * 1024
            && (forall o :: o in b.pending ==> o + |b.pending[o]| <= b.size)
  {
    ReachableInv(w, ss);
    assert Capacity(After(w, ss));
    ReceiversStay(w, ss);
    RunBounds(w, ss, r);
  }
}
