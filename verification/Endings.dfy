/**
 * How a transfer ends other than well, what it leaves behind, and how the next
 * one takes that up.
 */
module Endings {
  import opened Prelude
  import opened Reassembly
  import opened Admission
  import opened Receivers
  import opened Custody
  import opened Safety
  import opened Handover
  import opened Finish
  import opened Outcomes

  /** Transfer id of receiver r is over and its path is free; nothing was
      installed, and no byte and no entry is gone but its private file's. */
  ghost predicate Ended(w: World, v: World, r: Rid, id: Id)
    requires Has(w.recv, r, id)
  {
    var p := X(w.recv, r, id).partial;
    && r in v.recv && v.recv[r] == Receiver(w.recv[r].transfers - {id}, Idle)
    && v.claims == w.claims - {p} && v.saved == w.saved && v.data == w.data
    && v.dir == if p.Private? then w.dir - {p} else w.dir
  }

  /** An ABORT, or the end of the connection, ends a transfer and keeps its shared .partial. */
  lemma DropEnds(w: World, r: Rid, id: Id)
    requires Holder(w, r, id) && w.recv[r].pc.Idle?
    ensures Ended(w, Next(w, Drop(r, id)), r, id)
  {
  }

  lemma DiscardEnds(w: World, w1: World, r: Rid, id: Id)
    requires Holder(w, r, id) && Has(w1.recv, r, id) && X(w1.recv, r, id) == X(w.recv, r, id)
    requires w1.claims == w.claims && w1.saved == w.saved && w1.data == w.data && w1.dir == w.dir
    requires w1.recv[r] == Receiver(w.recv[r].transfers, Discarding(id))
    ensures Enabled(w1, FinishDiscard(r)) && Ended(w, Next(w1, FinishDiscard(r)), r, id)
  {
  }

  // ---- a DONE that fails -------------------------------------------------

  /** A DONE goes on to verification exactly if every byte is there and the file
      can be synced. Otherwise the transfer is where it was, and so it is if a
      read of the verification fails: the sender may go on or try again. */
  lemma DoneKeepsUnlessComplete(w: World, r: Rid, id: Id, syncOk: bool, n: nat)
    requires Inv(w) && Holder(w, r, id) && w.recv[r].pc.Idle?
    ensures var t := X(w.recv, r, id);
            var v := Next(w, DoneIn(r, id, syncOk));
            var later := w.(last := w.last[t.claim := w.now]);
            if syncOk && t.buf.cursor == t.buf.size
            then && v == SetPc(later, r, Verifying(id, []))
                 && Enabled(v, HashRead(r, n, false)) && Next(v, HashRead(r, n, false)) == later
            else v == later
  {
    var t := X(w.recv, r, id);
    assert TransferOk(w, r, id);
    var v := Next(w, DoneIn(r, id, syncOk));
    if syncOk && t.buf.cursor == t.buf.size {
      var v' := Next(v, HashRead(r, n, false));
      assert w.recv[r] == Receiver(w.recv[r].transfers, Idle);
      assert w.recv[r := w.recv[r]] == w.recv;
      assert v'.recv == w.recv && v'.last == w.last[t.claim := w.now];
    }
  }

  /** Receiver a is verifying transfer id = t, whose file is `bytes`, h of it hashed. */
  ghost predicate Hashing(w: World, v: World, a: Rid, id: Id, h: seq<byte>) {
    && Holder(w, a, id) && a in v.recv && v.recv[a] == Receiver(w.recv[a].transfers, Verifying(id, h))
    && v.claims == w.claims && v.saved == w.saved && v.data == w.data && v.dir == w.dir && v.sha == w.sha
    && X(w.recv, a, id).file in w.data && h <= w.data[X(w.recv, a, id).file]
  }

  lemma HashStep(w: World, v: World, a: Rid, id: Id, h: seq<byte>, n: nat)
    requires Hashing(w, v, a, id, h) && n > 0
    requires w.sha(w.data[X(w.recv, a, id).file]) != X(w.recv, a, id).hash
    ensures var s, bytes := HashRead(a, n, true), w.data[X(w.recv, a, id).file];
            && Enabled(v, s)
            && (if |h| < |bytes| then Hashing(w, Next(v, s), a, id, bytes[..Min(|h| + n, |bytes|)])
                else && Next(v, s).recv[a] == Receiver(w.recv[a].transfers, Discarding(id))
                     && Next(v, s).claims == w.claims && Next(v, s).saved == w.saved
                     && Next(v, s).data == w.data && Next(v, s).dir == w.dir)
  {
    var t := X(w.recv, a, id);
    var bytes := w.data[t.file];
    assert |h| < |bytes| ==> h + bytes[|h|..Min(|h| + n, |bytes|)] == bytes[..Min(|h| + n, |bytes|)];
    assert |h| >= |bytes| ==> h == bytes;
    assert Next(v, HashRead(a, n, true))
        == RefreshPc(v, t.claim, a, HashedTo(id, h, bytes, n, true, v.sha(h) == t.hash));
  }

  lemma {:induction false} FromHashing(w: World, v: World, a: Rid, id: Id, h: seq<byte>, n: nat) returns (ss: seq<Step>)
    requires Hashing(w, v, a, id, h) && n > 0
    requires w.sha(w.data[X(w.recv, a, id).file]) != X(w.recv, a, id).hash
    ensures ValidRun(v, ss) && OwnSteps(ss, a) && Ended(w, After(v, ss), a, id)
    decreases |w.data[X(w.recv, a, id).file]| - |h|
  {
    var s, bytes := HashRead(a, n, true), w.data[X(w.recv, a, id).file];
    HashStep(w, v, a, id, h, n);
    var v1 := Next(v, s);
    if |h| < |bytes| {
      ss := FromHashing(w, v1, a, id, bytes[..Min(|h| + n, |bytes|)], n);
    } else {
      DiscardEnds(w, v1, a, id);
      RunCons(v1, FinishDiscard(a), []);
      ss := [FinishDiscard(a)];
      assert [FinishDiscard(a)] + [] == ss;
    }
    RunCons(v, s, ss);
    ss := [s] + ss;
  }

  /** A file with every byte but not the declared digest is not installed: reads
      of any size find out, the transfer ends, and its shared .partial stays. */
  lemma MismatchEnds(w: World, a: Rid, id: Id, n: nat) returns (ss: seq<Step>)
    requires Inv(w) && Holder(w, a, id) && w.recv[a].pc.Idle? && n > 0
    requires var t := X(w.recv, a, id); t.buf.cursor == t.buf.size && t.file in w.data && w.sha(w.data[t.file]) != t.hash
    ensures ValidRun(w, ss) && OwnSteps(ss, a) && ss != [] && ss[0] == DoneIn(a, id, true) && Ended(w, After(w, ss), a, id)
  {
    var s := DoneIn(a, id, true);
    ss := FromHashing(w, Next(w, s), a, id, [], n);
    RunCons(w, s, ss);
    ss := [s] + ss;
  }

  /** A verified file that cannot be prepared or renamed is not installed either. */
  lemma InstallFails(w: World, a: Rid, id: Id, bytes: seq<byte>)
    requires Holder(w, a, id)
    requires w.recv[a].pc == Verified(id, bytes) || w.recv[a].pc == Prepared(id, bytes)
    ensures var s := if w.recv[a].pc.Verified? then Prepare(a, false) else Step.Rename(a, false);
            && Enabled(w, s) && Enabled(Next(w, s), FinishDiscard(a))
            && Ended(w, Next(Next(w, s), FinishDiscard(a)), a, id)
  {
    var s := if w.recv[a].pc.Verified? then Prepare(a, false) else Step.Rename(a, false);
    DiscardEnds(w, Next(w, s), a, id);
  }

  /** One that is renamed but not committed is taken back, and that ends it. */
  lemma CommitFails(w: World, a: Rid, id: Id, t: Transfer, bytes: seq<byte>, f: Path)
    requires InPlace(w, a, id, t, bytes, f, Renamed(id, f)) && !t.partial.Final?
    ensures var s := Commit(a, false, true);
            && Enabled(w, s) && Enabled(Next(w, s), FinishDiscard(a))
            && var v := Next(Next(w, s), FinishDiscard(a));
               && v.dir == w.dir - {f} && v.saved == w.saved - {f} && v.claims == w.claims - {t.partial} && v.data == w.data
               && v.recv[a] == Receiver(w.recv[a].transfers - {id}, Idle)
  {
  }

  // ---- a full disk -------------------------------------------------------

  /** A transfer that ran the disk full gives its space back: its file is gone,
      shared or not, its path is free, and the next INIT starts from nothing. */
  lemma AbandonEnds(w: World, r: Rid, id: Id)
    requires Inv(w) && Holder(w, r, id) && w.recv[r].pc == Abandoning(id)
    ensures var p := X(w.recv, r, id).partial;
            var v := Next(w, Abandon(r));
            && v.recv[r] == Receiver(w.recv[r].transfers - {id}, Idle)
            && v.claims == w.claims - {p} && v.saved == w.saved && v.dir == w.dir - {p} && BytesAt(v, p) == []
  {
    var p := X(w.recv, r, id).partial;
    assert w.dir - {p} - {p} == w.dir - {p};
  }

  // ---- taking up what was left -------------------------------------------

  /** What resuming means: when a transfer of a shared .partial has ended, by an
      ABORT, a closed connection or a failed DONE, any receiver that gets an INIT of
      the id and accepts it goes on behind the last byte that was written, if the
      declared size is not less; the ones before are kept and not asked for again. */
  lemma NextInitResumes(w: World, v: World, r: Rid, id: Id, q: Rid, size: nat, hash: Digest, lim: Limits, lim2: Limits)
    requires Inv(w) && Holder(w, r, id) && w.recv[r].pc.Idle? && X(w.recv, r, id).partial == Shared(id)
    requires Inv(v) && Ended(w, v, r, id) && q in v.recv && v.recv[q].pc.Idle? && !Has(v.recv, q, id)
    requires Acceptable(v, q, id, size, lim) && |w.data[X(w.recv, r, id).file]| <= size
    ensures var bytes := w.data[X(w.recv, r, id).file];
            var ss := InitRun(v, q, id, size, hash, lim, lim2, true, true);
            && ValidRun(v, ss) && Holder(After(v, ss), q, id)
            && var t := X(After(v, ss).recv, q, id);
               && t.buf.size == size && t.hash == hash && t.partial == Shared(id)
               && t.buf.cursor == |bytes| && t.file in After(v, ss).data && After(v, ss).data[t.file] == bytes
  {
    assert TransferOk(w, r, id) && GuardedOne(w, r, id) && Protected(w, r, id);
    assert PathFor(v, q, id) == Shared(id) && BytesAt(v, Shared(id)) == w.data[X(w.recv, r, id).file];
    InitOutcome(v, q, id, size, hash, lim, lim2, true, true);
  }
}
