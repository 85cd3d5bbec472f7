/**
 * The sliding window: against this receiver, and with the declared size equal
 * to the content length, offsets and ACKs stay aligned to the chunk size, so
 * the gate's subtraction never underflows and the window is never exceeded.
 * A parked sender is never forgotten.
 */
module Window {
  import opened Prelude
  import opened Reassembly
  import opened Admission
  import opened Session

  /** A whole number of chunks after the resume offset. */
  ghost predicate OnGrid(resume: nat, o: nat) {
    resume <= o && (o - resume) % CHUNK_SIZE == 0
  }

  ghost predicate Aligned(resume: nat, size: nat, o: nat) {
    o <= size && (OnGrid(resume, o) || o == size) && resume <= o
  }

  /** (off, data) is the chunk the sender cuts at `off`. */
  ghost predicate IsPiece(content: seq<byte>, resume: nat, off: nat, data: seq<byte>) {
    && OnGrid(resume, off) && off < |content|
    && data == content[off..Min(off + CHUNK_SIZE, |content|)]
  }

  lemma PieceEnd(content: seq<byte>, resume: nat, off: nat, data: seq<byte>)
    requires IsPiece(content, resume, off, data)
    ensures Aligned(resume, |content|, off + |data|) && off < off + |data| && IsSlice(content, off, data)
  {
  }

  /** Everything the receiver holds was cut by this sender from below `bound`. */
  ghost predicate Cut(b: Buf, content: seq<byte>, resume: nat, bound: nat) {
    && b.size == |content| && Aligned(resume, |content|, b.cursor) && b.cursor <= bound
    && forall o :: o in b.pending ==> IsPiece(content, resume, o, b.pending[o]) && o + |b.pending[o]| <= bound
  }

  lemma WriteCut(b: Buf, file: seq<byte>, data: seq<byte>, out: Outcome, content: seq<byte>, resume: nat, bound: nat)
    requires Cut(b, content, resume, bound) && IsPiece(content, resume, b.cursor, data) && b.cursor + |data| <= bound
    ensures Cut(WriteEffect(b, file, data, out).buf, content, resume, bound)
    ensures b.cursor <= WriteEffect(b, file, data, out).buf.cursor
  {
    PieceEnd(content, resume, b.cursor, data);
  }

  lemma {:induction false} DrainCut(b: Buf, file: seq<byte>, out: nat -> Outcome, k: nat,
                                    content: seq<byte>, resume: nat, bound: nat)
    requires Cut(b, content, resume, bound)
    ensures Cut(Drain(b, file, out, k).buf, content, resume, bound)
    ensures b.cursor <= Drain(b, file, out, k).buf.cursor
    decreases |b.pending|
  {
    if b.cursor in b.pending {
      WriteCut(TakeNext(b), file, b.pending[b.cursor], out(k), content, resume, bound);
      var e := WriteEffect(TakeNext(b), file, b.pending[b.cursor], out(k));
      if e.status.Fine? { DrainCut(e.buf, e.file, out, k + 1, content, resume, bound); }
    }
  }

  lemma ChunkCut(b: Buf, file: seq<byte>, off: nat, data: seq<byte>, out: nat -> Outcome,
                 content: seq<byte>, resume: nat, bound: nat)
    requires Cut(b, content, resume, bound) && IsPiece(content, resume, off, data) && off + |data| <= bound
    ensures Cut(Chunk(b, file, off, data, out).buf, content, resume, bound)
    ensures b.cursor <= Chunk(b, file, off, data, out).buf.cursor
  {
    PieceEnd(content, resume, off, data);
    if off == b.cursor {
      var e := WriteEffect(b, file, data, out(0));
      if e.status.Fine? { DrainCut(e.buf, e.file, out, 1, content, resume, bound); }
    }
  }

  ghost predicate UpOk(m: Up, content: seq<byte>, resume: nat, offset: nat) {
    m.MChunk? ==> IsPiece(content, resume, m.off, m.data) && m.off + |m.data| <= offset
  }

  ghost predicate DownOk(m: Down, content: seq<byte>, resume: nat, cursor: nat) {
    m.MAck? ==> Aligned(resume, |content|, m.off) && m.off <= cursor
  }

  ghost predicate WindowInv(s: State) {
    && s.size == |s.content| && Aligned(s.resume, s.size, s.offset)
    && Cut(s.buf, s.content, s.resume, s.offset)
    && (forall m :: m in s.up ==> UpOk(m, s.content, s.resume, s.offset))
    && (forall m :: m in s.down ==> DownOk(m, s.content, s.resume, s.buf.cursor))
    && Aligned(s.resume, s.size, s.acked) && s.acked <= s.buf.cursor
    && s.offset - s.acked <= WINDOW_BYTES
  }

  /** A parked sender that `acked` has moved on from has a token waiting or coming. */
  ghost predicate NoLostWakeup(s: State) {
    s.spc.Parked? ==> s.spc.seen <= s.acked && (s.acked != s.spc.seen ==> s.token || s.rpc.Notifying?)
  }

  lemma GridGap(resume: nat, a: nat, b: nat)
    requires OnGrid(resume, a) && OnGrid(resume, b) && a <= b && b - a < WINDOW_BYTES
    ensures b - a + CHUNK_SIZE <= WINDOW_BYTES
  {
  }

  lemma SendWindow(s: State)
    requires WindowInv(s) && s.spc.Gate?
    ensures WindowInv(Send(s))
    ensures InFlight(s.offset, s.acked) == s.offset - s.acked
  {
    var s' := Send(s);
    if s.offset < s.size && s.offset - s.acked < WINDOW_BYTES {
      GridGap(s.resume, s.acked, s.offset);
      PieceEnd(s.content, s.resume, s.offset, s.content[s.offset..Min(s.offset + CHUNK_SIZE, s.size)]);
      forall m | m in s'.up ensures UpOk(m, s.content, s.resume, s'.offset) {
        if m in s.up { assert UpOk(m, s.content, s.resume, s.offset); }
      }
    }
  }

  lemma ReceiveWindow(s: State, out: nat -> Outcome, ioOk: bool)
    requires WindowInv(s) && s.up != []
    ensures WindowInv(Receive(s, out, ioOk))
  {
    var s' := Receive(s, out, ioOk);
    assert s.up[0] in s.up && UpOk(s.up[0], s.content, s.resume, s.offset);
    if s.up[0].MChunk? && s.registered {
      ChunkCut(s.buf, s.file, s.up[0].off, s.up[0].data, out, s.content, s.resume, s.offset);
    }
    forall m | m in s'.down ensures DownOk(m, s.content, s.resume, s'.buf.cursor) {
      if m in s.down { assert DownOk(m, s.content, s.resume, s.buf.cursor); }
    }
  }

  lemma ReadWindow(s: State)
    requires WindowInv(s) && s.down != []
    ensures WindowInv(Read(s))
  {
    assert s.down[0] in s.down && DownOk(s.down[0], s.content, s.resume, s.buf.cursor);
  }

  lemma StepWakeup(s: State, st: Step)
    requires NoLostWakeup(s) && Enabled(s, st)
    ensures NoLostWakeup(Next(s, st))
  {
  }

  lemma StepWindow(s: State, st: Step)
    requires WindowInv(s) && NoLostWakeup(s) && Enabled(s, st)
    ensures WindowInv(Next(s, st)) && NoLostWakeup(Next(s, st))
  {
    StepWakeup(s, st);
    if st.SendStep? { SendWindow(s); }
    else if st.ReceiveStep? { ReceiveWindow(s, st.out, st.ioOk); }
    else if st.ReadStep? { ReadWindow(s); }
  }

  lemma {:induction false} RunWindow(s: State, steps: seq<Step>)
    requires WindowInv(s) && NoLostWakeup(s) && ValidRun(s, steps)
    ensures WindowInv(After(s, steps)) && NoLostWakeup(After(s, steps))
    decreases |steps|
  {
    if steps != [] {
      StepWindow(s, steps[0]);
      RunWindow(Next(s, steps[0]), steps[1..]);
    }
  }

  /** A parked sender stopped with its window full. */
  ghost predicate ParkedFull(s: State) { s.spc.Parked? ==> s.offset - s.spc.seen == WINDOW_BYTES }

  lemma StepParked(s: State, st: Step)
    requires WindowInv(s) && ParkedFull(s) && Enabled(s, st)
    ensures ParkedFull(Next(s, st))
  {
  }

  lemma {:induction false} RunParked(s: State, steps: seq<Step>)
    requires WindowInv(s) && NoLostWakeup(s) && ParkedFull(s) && ValidRun(s, steps)
    ensures ParkedFull(After(s, steps))
    decreases |steps|
  {
    if steps != [] {
      StepParked(s, steps[0]);
      StepWindow(s, steps[0]);
      RunParked(Next(s, steps[0]), steps[1..]);
    }
  }

  /** In every reachable state, with any failures: `offset-acked` does not
      underflow, at most 16 chunks are unacknowledged, a sender waits only with
      exactly that many, and no wakeup is lost. */
  lemma WindowNeverExceeded(s: State, partial: seq<byte>, budget: int, steps: seq<Step>)
    requires Begins(s, partial, budget) && s.size == |s.content| && ValidRun(s, steps)
    ensures var v := After(s, steps);
            && v.acked <= v.offset && InFlight(v.offset, v.acked) == v.offset - v.acked
            && v.offset - v.acked <= 16 * 48 * 1024
            && (v.spc.Parked? ==> v.offset - v.spc.seen == 16 * 48 * 1024)
            && NoLostWakeup(v)
  {
    RunWindow(s, steps);
    RunParked(s, steps);
  }

  // ---- the stored file, without relying on the digest --------------------

  ghost predicate PrefixInv(s: State) {
    && s.size == |s.content| && s.buf.size == s.size && PrefixOf(s.buf, s.file, s.content)
    && (s.stored.Some? ==> s.stored.value == s.content)
  }

  lemma StepPrefix(s: State, st: Step)
    requires PrefixInv(s) && WindowInv(s) && Enabled(s, st)
    ensures PrefixInv(Next(s, st))
  {
    if st.ReceiveStep? {
      assert s.up[0] in s.up && UpOk(s.up[0], s.content, s.resume, s.offset);
      match s.up[0]
      case MChunk(off, data) =>
        PieceEnd(s.content, s.resume, off, data);
        ChunkPrefix(s.buf, s.file, off, data, st.out, s.content);
        ChunkCut(s.buf, s.file, off, data, st.out, s.content, s.resume, s.offset);
      case MDone =>
        if s.buf.cursor == s.size { assert s.file == s.content; }
    }
  }

  lemma {:induction false} RunPrefix(s: State, steps: seq<Step>)
    requires PrefixInv(s) && WindowInv(s) && NoLostWakeup(s) && ValidRun(s, steps)
    ensures PrefixInv(After(s, steps))
    decreases |steps|
  {
    if steps != [] {
      StepPrefix(s, steps[0]);
      StepWindow(s, steps[0]);
      RunPrefix(Next(s, steps[0]), steps[1..]);
    }
  }

  /** Resuming from a prefix, an OK result means the content itself is stored,
      whatever the digest function and whatever failed on the way. */
  lemma OkFromPrefixStoresContent(s: State, partial: seq<byte>, budget: int, steps: seq<Step>)
    requires Begins(s, partial, budget) && s.size == |s.content| && partial <= s.content && ValidRun(s, steps)
    requires After(s, steps).spc.Finished? && After(s, steps).spc.ok
    ensures After(s, steps).stored == Some(s.content)
  {
    OkRun(s, steps);
    RunPrefix(s, steps);
  }
}
