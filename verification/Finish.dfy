/** A receiver that holds its claim can take its transfer to the end by itself. */
module Finish {
  import opened Prelude
  import opened Reassembly
  import opened Admission
  import opened Receivers
  import opened Custody
  import opened Safety
  import opened Handover

  lemma RunCons(w: World, s: Step, rest: seq<Step>)
    requires Enabled(w, s) && ValidRun(Next(w, s), rest)
    ensures ValidRun(w, [s] + rest) && After(w, [s] + rest) == After(Next(w, s), rest)
  {
    assert ([s] + rest)[1..] == rest;
  }

  /** Receiver a, at `pc`, still holds transfer id = t and its file still is `bytes`. */
  ghost predicate Finishing(w: World, a: Rid, id: Id, t: Transfer, bytes: seq<byte>, pc: Pc) {
    && Has(w.recv, a, id) && X(w.recv, a, id) == t && w.recv[a].pc == pc && Holds(w, t.partial, t.claim)
    && t.partial in w.dir && w.dir[t.partial] == t.file && !t.partial.Final?
    && t.file in w.data && w.data[t.file] == bytes && w.sha(bytes) == t.hash
  }

  /** The bytes are in place under the final name f and the transfer is over. */
  ghost predicate FinishedAs(v: World, a: Rid, id: Id, t: Transfer, bytes: seq<byte>, f: Path) {
    && f in v.saved && v.saved[f] == Saved(bytes, t.hash, id)
    && f in v.dir && v.dir[f] in v.data && v.data[v.dir[f]] == bytes
    && t.partial !in v.dir && t.partial !in v.claims && !Has(v.recv, a, id)
  }

  /** Right after the rename. */
  ghost predicate InPlace(w: World, a: Rid, id: Id, t: Transfer, bytes: seq<byte>, f: Path, pc: Pc) {
    && Has(w.recv, a, id) && X(w.recv, a, id) == t && w.recv[a].pc == pc && Holds(w, t.partial, t.claim)
    && f.Final? && f in w.saved && w.saved[f] == Saved(bytes, t.hash, id)
    && f in w.dir && w.dir[f] in w.data && w.data[w.dir[f]] == bytes && t.partial !in w.dir
  }

  lemma RenameStep(w: World, a: Rid, id: Id, t: Transfer, bytes: seq<byte>)
    requires Finishing(w, a, id, t, bytes, Prepared(id, bytes))
    ensures var s := Step.Rename(a, true);
            Enabled(w, s) && InPlace(Next(w, s), a, id, t, bytes, Final(w.nextName), Renamed(id, Final(w.nextName)))
  {
    assert Next(w, Step.Rename(a, true)) == Install(w, a, id, t, bytes);
  }

  lemma CommitStep(w: World, a: Rid, id: Id, t: Transfer, bytes: seq<byte>, f: Path)
    requires InPlace(w, a, id, t, bytes, f, Renamed(id, f))
    ensures Enabled(w, Commit(a, true, true)) && InPlace(Next(w, Commit(a, true, true)), a, id, t, bytes, f, Discarding(id))
  {
  }

  lemma ReleaseStep(w: World, a: Rid, id: Id, t: Transfer, bytes: seq<byte>, f: Path)
    requires InPlace(w, a, id, t, bytes, f, Discarding(id)) && !t.partial.Final?
    ensures Enabled(w, FinishDiscard(a)) && FinishedAs(Next(w, FinishDiscard(a)), a, id, t, bytes, f)
  {
  }

  lemma PrepareStep(w: World, a: Rid, id: Id, t: Transfer, bytes: seq<byte>)
    requires Finishing(w, a, id, t, bytes, Verified(id, bytes))
    ensures Enabled(w, Prepare(a, true)) && Finishing(Next(w, Prepare(a, true)), a, id, t, bytes, Prepared(id, bytes))
    ensures Next(w, Prepare(a, true)).nextName == w.nextName
  {
  }

  lemma HashedFar(id: Id, h: seq<byte>, bytes: seq<byte>, n: nat)
    requires h <= bytes
    ensures HashedTo(id, h, bytes, n, true, true)
         == if |h| < |bytes| then Verifying(id, bytes[..Min(|h| + n, |bytes|)]) else Verified(id, bytes)
    ensures |h| >= |bytes| ==> h == bytes
  {
    assert |h| < |bytes| ==> h + bytes[|h|..Min(|h| + n, |bytes|)] == bytes[..Min(|h| + n, |bytes|)];
  }

  /** A read moves the hash on by up to n bytes; at the end it compares. */
  lemma ReadStep(w: World, a: Rid, id: Id, t: Transfer, bytes: seq<byte>, h: seq<byte>, n: nat)
    requires Finishing(w, a, id, t, bytes, Verifying(id, h)) && h <= bytes
    ensures var s := HashRead(a, n, true);
            var pc := if |h| < |bytes| then Verifying(id, bytes[..Min(|h| + n, |bytes|)]) else Verified(id, bytes);
            Enabled(w, s) && Finishing(Next(w, s), a, id, t, bytes, pc) && Next(w, s).nextName == w.nextName
  {
    HashedFar(id, h, bytes, n);
    var pc := HashedTo(id, h, bytes, n, true, true);
    assert Next(w, HashRead(a, n, true)) == RefreshPc(w, t.claim, a, pc);
  }

  lemma DoneStep(w: World, a: Rid, id: Id, t: Transfer, bytes: seq<byte>)
    requires Finishing(w, a, id, t, bytes, Idle) && t.buf.cursor == t.buf.size
    ensures var s := DoneIn(a, id, true);
            Enabled(w, s) && Finishing(Next(w, s), a, id, t, bytes, Verifying(id, [])) && Next(w, s).nextName == w.nextName
  {
    assert Next(w, DoneIn(a, id, true)) == RefreshPc(w, t.claim, a, Verifying(id, []));
  }

  ghost predicate OwnSteps(ss: seq<Step>, a: Rid) { forall s :: s in ss ==> !s.Tick? && s.r == a }

  lemma FromPrepared(w: World, a: Rid, id: Id, t: Transfer, bytes: seq<byte>) returns (ss: seq<Step>)
    requires Finishing(w, a, id, t, bytes, Prepared(id, bytes))
    ensures ValidRun(w, ss) && OwnSteps(ss, a) && FinishedAs(After(w, ss), a, id, t, bytes, Final(w.nextName))
  {
    var f, s1, s2, s3 := Final(w.nextName), Step.Rename(a, true), Commit(a, true, true), FinishDiscard(a);
    RenameStep(w, a, id, t, bytes);
    var w1 := Next(w, s1);
    CommitStep(w1, a, id, t, bytes, f);
    var w2 := Next(w1, s2);
    ReleaseStep(w2, a, id, t, bytes, f);
    RunCons(w2, s3, []);
    RunCons(w1, s2, [s3] + []);
    RunCons(w, s1, [s2] + ([s3] + []));
    ss := [s1] + ([s2] + ([s3] + []));
  }

  /** However the reads are cut, `n` bytes at a time, the hash reaches the end. */
  lemma {:induction false} FromVerifying(w: World, a: Rid, id: Id, t: Transfer, bytes: seq<byte>, h: seq<byte>, n: nat)
    returns (ss: seq<Step>)
    requires Finishing(w, a, id, t, bytes, Verifying(id, h)) && h <= bytes && n > 0
    ensures ValidRun(w, ss) && OwnSteps(ss, a) && FinishedAs(After(w, ss), a, id, t, bytes, Final(w.nextName))
    decreases |bytes| - |h|
  {
    var s := HashRead(a, n, true);
    ReadStep(w, a, id, t, bytes, h, n);
    var w1 := Next(w, s);
    if |h| < |bytes| {
      ss := FromVerifying(w1, a, id, t, bytes, bytes[..Min(|h| + n, |bytes|)], n);
    } else {
      PrepareStep(w1, a, id, t, bytes);
      ss := FromPrepared(Next(w1, Prepare(a, true)), a, id, t, bytes);
      RunCons(w1, Prepare(a, true), ss);
      ss := [Prepare(a, true)] + ss;
    }
    RunCons(w, s, ss);
    ss := [s] + ss;
  }

  /** A holder that has every byte, however long it was quiet, and whose file has
      the declared digest, finishes by its own steps (DONE, reads of any size,
      prepare, rename, commit): exactly its bytes end up under a final name. */
  lemma HolderFinishes(w: World, a: Rid, id: Id, n: nat) returns (ss: seq<Step>)
    requires Inv(w) && Has(w.recv, a, id) && w.recv[a].pc.Idle? && n > 0
    requires var t := X(w.recv, a, id);
             && Holds(w, t.partial, t.claim) && t.buf.cursor == t.buf.size
             && t.file in w.data && w.sha(w.data[t.file]) == t.hash
    ensures var t := X(w.recv, a, id);
            ValidRun(w, ss) && OwnSteps(ss, a) && FinishedAs(After(w, ss), a, id, t, w.data[t.file], Final(w.nextName))
  {
    var t, s := X(w.recv, a, id), DoneIn(a, id, true);
    assert TransferOk(w, a, id) && GuardedOne(w, a, id) && Protected(w, a, id);
    DoneStep(w, a, id, t, w.data[t.file]);
    ss := FromVerifying(Next(w, s), a, id, t, w.data[t.file], [], n);
    RunCons(w, s, ss);
    ss := [s] + ss;
  }
}
