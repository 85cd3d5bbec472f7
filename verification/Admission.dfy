/**
 * What INIT checks before it accepts a transfer (`admit`, `resumeOffset`), and
 * how far those checks carry once the chunks arrive.
 */
module Admission {
  import opened Prelude
  import opened Reassembly

  const DISK_RESERVE: nat := 16 * 1024 * 1024

  /** Where a transfer of `size` bytes picks up; `stat` is the length of the
      .partial, None when it cannot be read. */
  function ResumeOffset(stat: Option<nat>, size: nat): (r: nat)
    ensures r <= size && (r > 0 ==> stat == Some(r))
  {
    if stat.Some? && stat.value <= size then stat.value else 0
  }

  datatype Verdict = Admitted(budget: int) | QuotaRefused | DiskRefused

  /** `used` is every byte under the received directory but this .partial;
      `free` is None where the platform cannot tell. A quota of 0 means none. */
  function Admit(quota: nat, used: nat, free: Option<nat>, stat: Option<nat>, size: nat): Verdict {
    var budget := Max(quota - used, 0);
    if quota > 0 && size > budget then QuotaRefused
    else
      var need := size - ResumeOffset(stat, size);
      if free.Some? && (need > free.value || free.value - need < DISK_RESERVE) then DiskRefused
      else Admitted(if quota > 0 then budget else -1)
  }

  /** Resuming: a .partial within the declared size is taken up where it ends;
      a longer one, or one that cannot be read, is not taken up at all. */
  lemma ResumesWhereItEnds(n: nat, size: nat)
    ensures ResumeOffset(Some(n), size) == n <==> n <= size
    ensures n > size ==> ResumeOffset(Some(n), size) == 0
    ensures ResumeOffset(None, size) == 0
  {
  }

  /** Of a .partial every byte is kept exactly if it is within the size, and the
      transfer starts at the end of what was kept. */
  lemma StartsWhereItEnds(partial: seq<byte>, size: nat, budget: int)
    ensures StartFile(partial, size) == partial <==> |partial| <= size
    ensures |partial| > size ==> StartFile(partial, size) == []
    ensures var b := StartBuf(partial, size, budget);
            b == Buf(size, |StartFile(partial, size)|, map[], 0, budget) && BufOk(b)
  {
  }

  /** What the checks of INIT decide: the quota refuses exactly what does not fit
      beside the rest of the directory; the disk, of what the quota lets pass,
      exactly that whose missing bytes would cut into the 16 MiB reserve; anything
      else is admitted, with all that the quota has left as its budget. */
  lemma AdmitExact(quota: nat, used: nat, free: Option<nat>, stat: Option<nat>, size: nat)
    ensures var v := Admit(quota, used, free, stat, size);
            var missing := if stat.Some? && stat.value <= size then size - stat.value else size;
            && (v == QuotaRefused <==> quota > 0 && size > 0 && used + size > quota)
            && (v == DiskRefused <==> v != QuotaRefused && free.Some? && free.value < missing + 16 * 1024 * 1024)
            && (v.Admitted? ==> v.budget == if quota == 0 then -1 else if used > quota then 0 else quota - used)
  {
  }

  /** The file a new transfer starts from: a stale .partial is emptied. */
  function StartFile(partial: seq<byte>, size: nat): seq<byte> {
    if ResumeOffset(Some(|partial|), size) == 0 then [] else partial
  }

  function StartBuf(partial: seq<byte>, size: nat, budget: int): Buf {
    Buf(size, ResumeOffset(Some(|partial|), size), map[], 0, budget)
  }

  /** One CHUNK frame with the fate of the writes it causes. */
  datatype Arrival = Arrival(off: nat, data: seq<byte>, out: nat -> Outcome)

  ghost function Deliver(b: Buf, file: seq<byte>, frames: seq<Arrival>): Effect {
    if frames == [] then Effect(b, file, Fine)
    else
      var e := Deliver(b, file, frames[..|frames| - 1]);
      var f := frames[|frames| - 1];
      Chunk(e.buf, e.file, f.off, f.data, f.out)
  }

  lemma {:induction false} DeliverBounds(b: Buf, file: seq<byte>, frames: seq<Arrival>)
    requires BufOk(b) && FileBounds(b, file, 0)
    ensures var e := Deliver(b, file, frames);
            BufOk(e.buf) && FileBounds(e.buf, e.file, 0) && e.buf.size == b.size
  {
    if frames != [] {
      DeliverBounds(b, file, frames[..|frames| - 1]);
      var e := Deliver(b, file, frames[..|frames| - 1]);
      var f := frames[|frames| - 1];
      ChunkKeeps(e.buf, e.file, f.off, f.data, f.out, 0);
    }
  }

  /** With no other writer since INIT, an admitted transfer never takes the
      received directory over its quota nor the disk below its reserve,
      whatever chunks arrive and however their writes fail. A directory
      already over quota only ever admits the empty file. */
  lemma AdmittedStaysInside(quota: nat, used: nat, free: Option<nat>, partial: seq<byte>, size: nat,
                            frames: seq<Arrival>)
    requires Admit(quota, used, free, Some(|partial|), size).Admitted?
    ensures var budget := Admit(quota, used, free, Some(|partial|), size).budget;
            var e := Deliver(StartBuf(partial, size, budget), StartFile(partial, size), frames);
            && (quota > 0 ==> used + |e.file| <= Max(quota, used))
            && (free.Some? ==> free.value + |partial| - |e.file| >= DISK_RESERVE)
            && |e.file| <= size
  {
    var budget := Admit(quota, used, free, Some(|partial|), size).budget;
    DeliverBounds(StartBuf(partial, size, budget), StartFile(partial, size), frames);
  }

  // ---- the per-chunk quota check -----------------------------------------

  ghost predicate NeverTorn(f: Arrival) {
    forall k :: !f.out(k).Torn?
  }

  lemma {:induction false} DrainCovered(b: Buf, file: seq<byte>, out: nat -> Outcome, k: nat)
    requires DrainOk(b) && Covered(b) && forall j :: !out(j).Torn?
    ensures var e := Drain(b, file, out, k); Covered(e.buf) && e.status != OverQuota
    decreases |b.pending|
  {
    if b.cursor in b.pending {
      TakeNextKeeps(b);
      var e := WriteEffect(TakeNext(b), file, b.pending[b.cursor], out(k));
      if e.status.Fine? { DrainCovered(e.buf, e.file, out, k + 1); }
    }
  }

  /** While no write has failed, the mid-stream quota check never refuses an
      admitted transfer, for any size and any chunks. */
  lemma {:induction false} AdmittedNeverTripsQuota(quota: nat, used: nat, free: Option<nat>, partial: seq<byte>,
                                                   size: nat, frames: seq<Arrival>)
    requires Admit(quota, used, free, Some(|partial|), size).Admitted?
    requires forall f :: f in frames ==> NeverTorn(f)
    ensures var budget := Admit(quota, used, free, Some(|partial|), size).budget;
            var e := Deliver(StartBuf(partial, size, budget), StartFile(partial, size), frames);
            Covered(e.buf) && e.status != OverQuota
    decreases |frames|
  {
    var b := StartBuf(partial, size, Admit(quota, used, free, Some(|partial|), size).budget);
    var file := StartFile(partial, size);
    if frames != [] {
      var init := frames[..|frames| - 1];
      AdmittedNeverTripsQuota(quota, used, free, partial, size, init);
      DeliverBounds(b, file, init);
      var e := Deliver(b, file, init);
      var f := frames[|frames| - 1];
      assert NeverTorn(f);
      if f.off == e.buf.cursor && |f.data| <= e.buf.size - f.off {
        var w := WriteEffect(e.buf, e.file, f.data, f.out(0));
        if w.status.Fine? { DrainCovered(w.buf, w.file, f.out, 1); }
      }
    }
  }

  // ---- what failed writes cost -------------------------------------------

  /** The bytes one write is charged for without landing. */
  ghost function WriteLost(b: Buf, data: seq<byte>, out: Outcome): nat {
    if out.Torn? && !(b.budget >= 0 && |data| > b.budget) then |data| else 0
  }

  ghost function DrainLost(b: Buf, file: seq<byte>, out: nat -> Outcome, k: nat): nat
    decreases |b.pending|
  {
    if b.cursor !in b.pending then 0
    else
      var e := WriteEffect(TakeNext(b), file, b.pending[b.cursor], out(k));
      WriteLost(TakeNext(b), b.pending[b.cursor], out(k)) + if e.status.Fine? then DrainLost(e.buf, e.file, out, k + 1) else 0
  }

  ghost function ChunkLost(b: Buf, file: seq<byte>, f: Arrival): nat {
    if f.off != b.cursor || |f.data| > b.size - f.off then 0
    else
      var e := WriteEffect(b, file, f.data, f.out(0));
      WriteLost(b, f.data, f.out(0)) + if e.status.Fine? then DrainLost(e.buf, e.file, f.out, 1) else 0
  }

  /** The bytes charged to failed writes over a run of chunks. */
  ghost function RunLost(b: Buf, file: seq<byte>, frames: seq<Arrival>): nat {
    if frames == [] then 0
    else
      var init := frames[..|frames| - 1];
      var e := Deliver(b, file, init);
      RunLost(b, file, init) + ChunkLost(e.buf, e.file, frames[|frames| - 1])
  }

  /** b' spent its budget on the bytes that landed and on `lost` more. */
  ghost predicate Spent(b: Buf, b': Buf, lost: nat) {
    && b'.size == b.size
    && (b.budget >= 0 ==> b'.budget >= 0 && b'.budget + b'.cursor + lost == b.budget + b.cursor)
    && (b.budget < 0 ==> b'.budget == b.budget)
  }

  lemma {:induction false} DrainSpends(b: Buf, file: seq<byte>, out: nat -> Outcome, k: nat)
    ensures Spent(b, Drain(b, file, out, k).buf, DrainLost(b, file, out, k))
    decreases |b.pending|
  {
    if b.cursor in b.pending {
      var e := WriteEffect(TakeNext(b), file, b.pending[b.cursor], out(k));
      if e.status.Fine? { DrainSpends(e.buf, e.file, out, k + 1); }
    }
  }

  lemma ChunkSpends(b: Buf, file: seq<byte>, f: Arrival)
    ensures Spent(b, Chunk(b, file, f.off, f.data, f.out).buf, ChunkLost(b, file, f))
  {
    if f.off == b.cursor && |f.data| <= b.size - f.off {
      var e := WriteEffect(b, file, f.data, f.out(0));
      if e.status.Fine? { DrainSpends(e.buf, e.file, f.out, 1); }
    }
  }

  /** Every byte of budget goes into the cursor or into a failed write. */
  lemma {:induction false} RunSpends(b: Buf, file: seq<byte>, frames: seq<Arrival>)
    ensures Spent(b, Deliver(b, file, frames).buf, RunLost(b, file, frames))
  {
    if frames != [] {
      var init := frames[..|frames| - 1];
      RunSpends(b, file, init);
      var e := Deliver(b, file, init);
      ChunkSpends(e.buf, e.file, frames[|frames| - 1]);
    }
  }

  lemma {:induction false} DeliverMore(b: Buf, file: seq<byte>, frames: seq<Arrival>, more: seq<Arrival>)
    ensures var e := Deliver(b, file, frames);
            more != [] ==> Deliver(b, file, frames + more) == Deliver(e.buf, e.file, more)
  {
    if more != [] {
      var init := more[..|more| - 1];
      DeliverMore(b, file, frames, init);
      assert (frames + more)[..|frames + more| - 1] == frames + init;
      assert init == [] ==> frames + init == frames;
    }
  }

  /** The rest of the content in one chunk completes a transfer whose budget
      covers it and is refused by the quota otherwise. */
  lemma RestOfContent(b: Buf, file: seq<byte>, rest: seq<byte>)
    requires BufOk(b) && FileBounds(b, file, 0) && |rest| == b.size - b.cursor
    ensures var e := Chunk(b, file, b.cursor, rest, Lands);
            && (e.status == OverQuota <==> !Covered(b)) && !Ends(e.status)
            && (Covered(b) ==> e.buf.cursor == b.size)
  {
    if Covered(b) {
      LandsAtCursor(b, file, rest);
      ChunkKeeps(b, file, b.cursor, rest, Lands, 0);
    }
  }

  /** Once the budget no longer covers the rest, no chunks complete the transfer. */
  lemma ShortForGood(b: Buf, file: seq<byte>, frames: seq<Arrival>)
    requires BufOk(b) && FileBounds(b, file, 0) && !Covered(b)
    ensures Deliver(b, file, frames).buf.cursor < b.size
  {
    RunSpends(b, file, frames);
  }

  /** A chunk that fails this way ends the transfer: its file was taken over, or
      the disk is full. */
  predicate Ends(status: Status) {
    status.Superseded? || (status.WriteError? && status.diskFull)
  }

  /** No chunk so far has ended the transfer. */
  ghost predicate Alive(b: Buf, file: seq<byte>, frames: seq<Arrival>) {
    frames == [] || (Alive(b, file, frames[..|frames| - 1]) && !Ends(Deliver(b, file, frames).status))
  }

  /** Some further chunks bring the transfer to its size, alive. */
  ghost predicate CanFinish(b: Buf, file: seq<byte>, frames: seq<Arrival>) {
    exists more :: Alive(b, file, frames + more) && Deliver(b, file, frames + more).buf.cursor == b.size
  }

  lemma {:induction false} AliveBefore(b: Buf, file: seq<byte>, frames: seq<Arrival>, more: seq<Arrival>)
    requires Alive(b, file, frames + more)
    ensures Alive(b, file, frames)
    decreases |more|
  {
    if more == [] {
      assert frames + more == frames;
    } else {
      assert (frames + more)[..|frames + more| - 1] == frames + more[..|more| - 1];
      AliveBefore(b, file, frames, more[..|more| - 1]);
    }
  }

  lemma CoveredFinishes(b: Buf, file: seq<byte>, frames: seq<Arrival>) returns (more: seq<Arrival>)
    requires BufOk(b) && FileBounds(b, file, 0) && Alive(b, file, frames) && Covered(Deliver(b, file, frames).buf)
    ensures Alive(b, file, frames + more) && Deliver(b, file, frames + more).buf.cursor == b.size
  {
    DeliverBounds(b, file, frames);
    var e := Deliver(b, file, frames);
    var last := Arrival(e.buf.cursor, seq(e.buf.size - e.buf.cursor, _ => 0), Lands);
    RestOfContent(e.buf, e.file, last.data);
    more := [last];
    assert (frames + more)[..|frames + more| - 1] == frames;
  }

  lemma ShortNeverFinishes(b: Buf, file: seq<byte>, frames: seq<Arrival>, more: seq<Arrival>)
    requires BufOk(b) && FileBounds(b, file, 0) && !Covered(Deliver(b, file, frames).buf)
    ensures Deliver(b, file, frames + more).buf.cursor < b.size
  {
    DeliverBounds(b, file, frames);
    var e := Deliver(b, file, frames);
    ShortForGood(e.buf, e.file, more);
    DeliverMore(b, file, frames, more);
    assert more == [] ==> frames + more == frames;
  }

  lemma FinishesIffCovered(b: Buf, file: seq<byte>, frames: seq<Arrival>)
    requires BufOk(b) && FileBounds(b, file, 0)
    ensures CanFinish(b, file, frames) <==> Alive(b, file, frames) && Covered(Deliver(b, file, frames).buf)
  {
    if CanFinish(b, file, frames) {
      var more :| Alive(b, file, frames + more) && Deliver(b, file, frames + more).buf.cursor == b.size;
      AliveBefore(b, file, frames, more);
      if !Covered(Deliver(b, file, frames).buf) { ShortNeverFinishes(b, file, frames, more); }
    } else if Alive(b, file, frames) && Covered(Deliver(b, file, frames).buf) {
      var more := CoveredFinishes(b, file, frames);
    }
  }

  /** After any chunks with any failures, an admitted transfer can still be
      finished exactly if none of them ended it (a full disk, a takeover) and
      there is no quota or the bytes charged to failed writes fit the slack the
      quota left at INIT. Of a transfer that has not ended, the rest of the
      content is refused as over quota exactly if they do not fit. */
  lemma CompletesIffSlack(quota: nat, used: nat, free: Option<nat>, partial: seq<byte>, size: nat,
                         frames: seq<Arrival>, rest: seq<byte>)
    requires Admit(quota, used, free, Some(|partial|), size).Admitted?
    ensures var b := StartBuf(partial, size, Admit(quota, used, free, Some(|partial|), size).budget);
            var file := StartFile(partial, size);
            var e := Deliver(b, file, frames);
            var fits := quota == 0 || RunLost(b, file, frames) <= b.budget - (size - b.cursor);
            && (CanFinish(b, file, frames) <==> Alive(b, file, frames) && fits)
            && (Alive(b, file, frames) && |rest| == size - e.buf.cursor ==>
                  (Chunk(e.buf, e.file, e.buf.cursor, rest, Lands).status == OverQuota <==> !fits))
  {
    var b := StartBuf(partial, size, Admit(quota, used, free, Some(|partial|), size).budget);
    var file := StartFile(partial, size);
    DeliverBounds(b, file, frames);
    RunSpends(b, file, frames);
    var e := Deliver(b, file, frames);
    FinishesIffCovered(b, file, frames);
    if |rest| == size - e.buf.cursor { RestOfContent(e.buf, e.file, rest); }
  }

  /** Without a quota too, a full disk ends a transfer for good. */
  lemma DiskFullEnds(data: seq<byte>)
    requires |data| == 1
    ensures Admit(0, 0, None, Some(0), 1) == Admitted(-1)
    ensures var full: nat -> Outcome := k => Torn(0, true);
            !CanFinish(StartBuf([], 1, -1), [], [Arrival(0, data, full)])
  {
    var full: nat -> Outcome := k => Torn(0, true);
    var frames := [Arrival(0, data, full)];
    assert frames[..0] == [];
    assert Ends(Deliver(StartBuf([], 1, -1), [], frames).status);
    FinishesIffCovered(StartBuf([], 1, -1), [], frames);
  }

  /** A failed write is charged all the same: with a budget of exactly the
      declared size, its retransmission is refused as over quota. */
  lemma FailedWriteCanTripQuota(data: seq<byte>)
    requires |data| == 1
    ensures Admit(1, 0, None, Some(0), 1) == Admitted(1)
    ensures var fail: nat -> Outcome := k => Torn(0, false);
            Deliver(StartBuf([], 1, 1), [], [Arrival(0, data, fail), Arrival(0, data, Lands)]).status == OverQuota
  {
    var fail: nat -> Outcome := k => Torn(0, false);
    var frames := [Arrival(0, data, fail), Arrival(0, data, Lands)];
    assert frames[..1] == [Arrival(0, data, fail)];
    assert frames[..1][..0] == [];
    assert Deliver(StartBuf([], 1, 1), [], frames[..1]).buf.budget == 0;
  }
}
