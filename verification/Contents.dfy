/**
 * When every sender of an id sends slices of that id's one content and
 * declares its length, every .partial is always a prefix of that content, and
 * every file installed is that content.
 */
module Contents {
  import opened Prelude
  import opened Reassembly
  import opened Admission
  import opened Receivers
  import opened Custody
  import opened Ownership
  import opened Registration
  import opened Safety

  type Catalog = Id -> seq<byte>

  ghost predicate Honest(s: Step, content: Catalog) {
    match s
    case InitCheck(_, id, size, _, _) => size == |content(id)|
    case ChunkIn(_, id, off, bytes, _) => IsSlice(content(id), off, bytes)
    case _ => true
  }

  /** The .partial at p, shared or private, is a prefix of its content. */
  ghost predicate PrefixAt(w: World, p: Path, content: Catalog) {
    p in w.dir && !p.Final? && w.dir[p] in w.data ==> w.data[w.dir[p]] <= content(p.id)
  }

  ghost predicate Partials(w: World, content: Catalog) {
    forall p :: PrefixAt(w, p, content)
  }

  ghost predicate SlicesIn(b: Buf, content: seq<byte>) {
    b.size == |content| && forall o :: o in b.pending ==> IsSlice(content, o, b.pending[o])
  }

  ghost predicate Buffers(rs: Receivers, content: Catalog) {
    forall r, id :: Has(rs, r, id) ==> SlicesIn(X(rs, r, id).buf, content(id))
  }

  ghost predicate JobOk(pc: Pc, content: Catalog) {
    (pc.Checked? || pc.Claimed?) ==> pc.job.size == |content(pc.job.id)|
  }

  ghost predicate Jobs(rs: Receivers, content: Catalog) {
    forall r :: r in rs ==> JobOk(rs[r].pc, content)
  }

  ghost predicate Installed(w: World, content: Catalog) {
    forall f :: f in w.saved ==> w.saved[f].bytes == content(w.saved[f].id)
  }

  ghost predicate Faithful(w: World, content: Catalog) {
    Partials(w, content) && Buffers(w.recv, content) && Jobs(w.recv, content) && Installed(w, content)
  }

  // ---- receivers ---------------------------------------------------------

  /** What step s leaves in its own receiver is again about slices of content. */
  ghost predicate OwnOk(w': World, r: Rid, content: Catalog) {
    && r in w'.recv && JobOk(w'.recv[r].pc, content)
    && forall id :: id in w'.recv[r].transfers ==> SlicesIn(w'.recv[r].transfers[id].buf, content(id))
  }

  lemma OwnSuffices(w: World, s: Step, content: Catalog)
    requires Enabled(w, s) && !s.Tick? && Buffers(w.recv, content) && Jobs(w.recv, content)
    requires OwnOk(Next(w, s), s.r, content)
    ensures Buffers(Next(w, s).recv, content) && Jobs(Next(w, s).recv, content)
  {
    var w' := Next(w, s);
    forall r, id | Has(w'.recv, r, id) ensures SlicesIn(X(w'.recv, r, id).buf, content(id)) {
      if r != s.r { assert Has(w.recv, r, id); }
    }
  }

  lemma WriteOwn(w: World, r: Rid, id: Id, b: Buf, bytes: seq<byte>, out: Outcome, content: Catalog)
    requires Has(w.recv, r, id) && Buffers(w.recv, content) && SlicesIn(b, content(id))
    ensures OwnOk(Write(w, r, id, b, bytes, out), r, content)
  {
    forall i | i in w.recv[r].transfers ensures SlicesIn(w.recv[r].transfers[i].buf, content(i)) {
      assert Has(w.recv, r, i);
    }
  }

  lemma HoldOwn(w: World, r: Rid, id: Id, off: nat, bytes: seq<byte>, content: Catalog)
    requires Has(w.recv, r, id) && OwnOk(w, r, content) && IsSlice(content(id), off, bytes)
    ensures var t := X(w.recv, r, id); OwnOk(SetX(w, r, id, t.(buf := Hold(t.buf, off, bytes)), Idle), r, content)
  {
  }

  lemma ChunkOwn(w: World, s: Step, content: Catalog)
    requires Enabled(w, s) && s.ChunkIn? && Honest(s, content) && Buffers(w.recv, content)
    requires OwnOk(w, s.r, content)
    ensures OwnOk(Next(w, s), s.r, content)
  {
    if Has(w.recv, s.r, s.id) {
      HoldOwn(w, s.r, s.id, s.off, s.bytes, content);
      WriteOwn(w, s.r, s.id, X(w.recv, s.r, s.id).buf, s.bytes, s.out, content);
    }
  }

  lemma DrainOwn(w: World, s: Step, content: Catalog)
    requires Enabled(w, s) && s.DrainOne? && Buffers(w.recv, content)
    requires OwnOk(w, s.r, content)
    ensures OwnOk(Next(w, s), s.r, content)
  {
    var id := w.recv[s.r].pc.id;
    if Has(w.recv, s.r, id) && X(w.recv, s.r, id).buf.cursor in X(w.recv, s.r, id).buf.pending {
      var b := X(w.recv, s.r, id).buf;
      WriteOwn(w, s.r, id, TakeNext(b), b.pending[b.cursor], s.out, content);
    }
  }

  lemma OwnNow(w: World, r: Rid, content: Catalog)
    requires r in w.recv && Buffers(w.recv, content) && Jobs(w.recv, content)
    ensures OwnOk(w, r, content)
  {
    forall i | i in w.recv[r].transfers ensures SlicesIn(w.recv[r].transfers[i].buf, content(i)) {
      assert Has(w.recv, r, i);
    }
  }

  lemma InitOwn(w: World, s: Step, content: Catalog)
    requires Enabled(w, s) && (s.InitCheck? || s.InitClaim? || s.InitFinish?) && Honest(s, content)
    requires OwnOk(w, s.r, content)
    ensures OwnOk(Next(w, s), s.r, content)
  {
    if s.InitFinish? { FinishOwn(w, s.r, s.openOk, s.statOk, s.truncOk, content); }
  }

  lemma RegisterOwn(w: World, r: Rid, statOk: bool, truncOk: bool, content: Catalog)
    requires r in w.recv && w.recv[r].pc.Claimed? && OwnOk(w, r, content)
    ensures OwnOk(Register(w, r, statOk, truncOk), r, content)
  {
  }

  lemma FinishOwn(w: World, r: Rid, openOk: bool, statOk: bool, truncOk: bool, content: Catalog)
    requires r in w.recv && w.recv[r].pc.Claimed? && OwnOk(w, r, content)
    ensures OwnOk(AfterInitFinish(w, r, openOk, statOk, truncOk), r, content)
  {
    var w1 := OpenFile(w, w.recv[r].pc.job.partial);
    assert OwnOk(w1, r, content);
    RegisterOwn(w1, r, statOk, truncOk, content);
  }

  lemma StepOwn(w: World, s: Step, content: Catalog)
    requires Enabled(w, s) && !s.Tick? && Honest(s, content) && Buffers(w.recv, content) && Jobs(w.recv, content)
    ensures OwnOk(Next(w, s), s.r, content)
  {
    OwnNow(w, s.r, content);
    if s.ChunkIn? { ChunkOwn(w, s, content); }
    else if s.DrainOne? { DrainOwn(w, s, content); }
    else if s.InitCheck? || s.InitClaim? || s.InitFinish? { InitOwn(w, s, content); }
  }

  // ---- files -------------------------------------------------------------

  lemma WritePrefix(w: World, r: Rid, id: Id, b: Buf, bytes: seq<byte>, out: Outcome, content: Catalog)
    requires Inv(w) && Has(w.recv, r, id) && !Leaving(w.recv[r].pc, id) && TouchesOwn(w, r, id, X(w.recv, r, id).partial)
    requires b.cursor == X(w.recv, r, id).buf.cursor && SlicesIn(b, content(id))
    requires IsSlice(content(id), b.cursor, bytes)
    requires PrefixAt(w, X(w.recv, r, id).partial, content)
    ensures PrefixAt(Write(w, r, id, b, bytes, out), X(w.recv, r, id).partial, content)
  {
    var t := X(w.recv, r, id);
    assert TransferOk(w, r, id) && GuardedOne(w, r, id);
    WriteAtPrefix(b, w.data[t.file], bytes, out, content(id));
  }

  lemma ChunkPartials(w: World, s: Step, p: Path, content: Catalog)
    requires Inv(w) && Enabled(w, s) && (s.ChunkIn? || s.DrainOne?) && Honest(s, content)
    requires Buffers(w.recv, content) && PrefixAt(w, p, content) && Touches(w, s, p)
    ensures PrefixAt(Next(w, s), p, content)
  {
    assert PcOk(w, s.r);
    var id := if s.ChunkIn? then s.id else w.recv[s.r].pc.id;
    assert Has(w.recv, s.r, id) && SlicesIn(X(w.recv, s.r, id).buf, content(id));
    var b := X(w.recv, s.r, id).buf;
    if s.ChunkIn? {
      if s.off == b.cursor { WritePrefix(w, s.r, id, b, s.bytes, s.out, content); }
    } else if b.cursor in b.pending {
      WritePrefix(w, s.r, id, TakeNext(b), b.pending[b.cursor], s.out, content);
    }
  }

  lemma RegisterPartials(w: World, r: Rid, statOk: bool, truncOk: bool, p: Path, content: Catalog)
    requires r in w.recv && w.recv[r].pc.Claimed? && PrefixAt(w, p, content)
    ensures PrefixAt(Register(w, r, statOk, truncOk), p, content)
  {
  }

  lemma OpenPartials(w: World, q: Path, p: Path, content: Catalog)
    requires Files(w) && PrefixAt(w, p, content)
    ensures PrefixAt(OpenFile(w, q), p, content)
  {
  }

  lemma FailPartials(w: World, r: Rid, p: Path, content: Catalog)
    requires r in w.recv && w.recv[r].pc.Claimed? && PrefixAt(w, p, content)
    ensures PrefixAt(FailInit(w, r), p, content)
  {
  }

  lemma FinishPartials(w: World, r: Rid, openOk: bool, statOk: bool, truncOk: bool, p: Path, content: Catalog)
    requires Files(w) && r in w.recv && w.recv[r].pc.Claimed? && PrefixAt(w, p, content)
    ensures PrefixAt(AfterInitFinish(w, r, openOk, statOk, truncOk), p, content)
  {
    var w1 := OpenFile(w, w.recv[r].pc.job.partial);
    OpenPartials(w, w.recv[r].pc.job.partial, p, content);
    FailPartials(w, r, p, content);
    FailPartials(w1, r, p, content);
    RegisterPartials(w1, r, statOk, truncOk, p, content);
  }

  lemma EndPartials(w: World, s: Step, p: Path, content: Catalog)
    requires Enabled(w, s) && (s.Rename? || s.Abandon? || s.FinishDiscard? || s.Drop?) && PrefixAt(w, p, content)
    ensures PrefixAt(Next(w, s), p, content)
  {
  }

  lemma StepPartials(w: World, s: Step, p: Path, content: Catalog)
    requires Inv(w) && Enabled(w, s) && Honest(s, content)
    requires Buffers(w.recv, content) && PrefixAt(w, p, content)
    ensures PrefixAt(Next(w, s), p, content)
  {
    if p.Final? {}
    else if !Touches(w, s, p) { StepTouches(w, s, p); assert p in w.dir ==> w.dir[p] in w.data; }
    else if s.ChunkIn? || s.DrainOne? { ChunkPartials(w, s, p, content); }
    else if s.InitFinish? { FinishPartials(w, s.r, s.openOk, s.statOk, s.truncOk, p, content); }
    else { EndPartials(w, s, p, content); }
  }

  /** The verified bytes of a held file of full length are the whole content. */
  lemma RenamePuts(w: World, s: Step, content: Catalog)
    requires Inv(w) && Enabled(w, s) && s.Rename? && Faithful(w, content)
    ensures Installed(Next(w, s), content)
  {
    var id := w.recv[s.r].pc.id;
    var t := X(w.recv, s.r, id);
    assert PcOk(w, s.r) && GuardedOne(w, s.r, id) && TransferOk(w, s.r, id) && PrefixAt(w, t.partial, content);
    assert SlicesIn(t.buf, content(id));
    if Holds(w, t.partial, t.claim) {
      assert Protected(w, s.r, id);
      assert w.data[t.file] == content(id);
    }
  }

  lemma StepFaithful(w: World, s: Step, content: Catalog)
    requires Inv(w) && Faithful(w, content) && Enabled(w, s) && Honest(s, content)
    ensures Faithful(Next(w, s), content)
  {
    forall p ensures PrefixAt(Next(w, s), p, content) { StepPartials(w, s, p, content); }
    if !s.Tick? {
      StepOwn(w, s, content);
      OwnSuffices(w, s, content);
      if s.Rename? { RenamePuts(w, s, content); }
    }
  }

  /** Over any interleaving of any number of receivers, with takeovers, torn
      writes, aborts and refusals: every .partial is a prefix of its id's
      content, a holder's cursor lies within its file, and every installed
      file is the whole content. */
  lemma {:induction false} AlwaysPrefixes(w: World, ss: seq<Step>, content: Catalog)
    requires Inv(w) && Faithful(w, content) && ValidRun(w, ss)
    requires forall s :: s in ss ==> Honest(s, content)
    ensures Inv(After(w, ss)) && Faithful(After(w, ss), content)
    decreases |ss|
  {
    if ss != [] {
      StepInv(w, ss[0]);
      StepFaithful(w, ss[0], content);
      AlwaysPrefixes(Next(w, ss[0]), ss[1..], content);
    }
  }

  lemma ReachablePrefixes(w: World, ss: seq<Step>, content: Catalog, r: Rid, id: Id, f: Path)
    requires Initial(w) && Partials(w, content) && ValidRun(w, ss)
    requires forall s :: s in ss ==> Honest(s, content)
    ensures var v := After(w, ss);
            && (Shared(id) in v.dir ==> v.dir[Shared(id)] in v.data && v.data[v.dir[Shared(id)]] <= content(id))
            && (TouchesOwn(v, r, id, Shared(id)) && !Leaving(v.recv[r].pc, id) ==>
                  Shared(id) in v.dir && X(v.recv, r, id).buf.cursor <= |v.data[v.dir[Shared(id)]]|)
            && (f in v.saved ==> f in v.dir && v.dir[f] in v.data && v.data[v.dir[f]] == content(v.saved[f].id))
  {
    InitialInv(w);
    AlwaysPrefixes(w, ss, content);
    var v := After(w, ss);
    assert PrefixAt(v, Shared(id), content);
    if TouchesOwn(v, r, id, Shared(id)) { assert GuardedOne(v, r, id) && Protected(v, r, id); }
  }
}
