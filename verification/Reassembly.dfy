/**
 * Reassembly of out-of-order chunks into one contiguous file: the part of
 * `recvTransfer` that `handleChunk` and `writeAt` change.
 */
module Reassembly {
  import opened Prelude

  const CHUNK_SIZE: nat := 48 * 1024
  const STREAM_WINDOW: nat := 16
  const MAX_PENDING: nat := STREAM_WINDOW * CHUNK_SIZE

  /** The reassembly state of one transfer; `budget` is -1 when there is no quota. */
  datatype Buf = Buf(size: nat, cursor: nat, pending: map<nat, seq<byte>>, pendBytes: int, budget: int)

  /** What the environment does to one write: it lands, it fails after `n`
      bytes, or the claim on the file turns out to be gone. */
  datatype Outcome = Written | Torn(n: nat, diskFull: bool) | TakenOver

  /** The failure-free environment: every write lands. */
  function Lands(k: nat): Outcome { Written }

  datatype Status = Fine | OutOfBounds | Superseded | OverQuota | WriteError(diskFull: bool)

  datatype Effect = Effect(buf: Buf, file: seq<byte>, status: Status)

  /** A positional write; a gap before `off` reads as zeros. */
  function Overwrite(file: seq<byte>, off: nat, data: seq<byte>): (r: seq<byte>)
    ensures data != [] ==> |r| == Max(|file|, off + |data|)
    ensures off <= |file| ==> |r| == Max(|file|, off + |data|)
  {
    var head := if off <= |file| then file[..off] else file + seq(off - |file|, _ => 0);
    if data == [] then file
    else head + data + (if off + |data| <= |file| then file[off + |data|..] else [])
  }

  /** What a write of n bytes leaves of a budget. */
  function Debit(budget: int, n: int): int { if budget >= 0 then budget - n else budget }

  /** One contiguous write at the cursor. */
  function WriteEffect(b: Buf, file: seq<byte>, data: seq<byte>, out: Outcome): Effect {
    if out.TakenOver? then Effect(b, file, Superseded)
    else if b.budget >= 0 && |data| > b.budget then Effect(b, file, OverQuota)
    else
      var paid := b.(budget := Debit(b.budget, |data|));
      match out
      case Written => Effect(paid.(cursor := b.cursor + |data|), Overwrite(file, b.cursor, data), Fine)
      case Torn(n, full) =>
        Effect(paid, Overwrite(file, b.cursor, data[..Min(n, |data|)]), WriteError(full))
  }

  /** Takes the buffered chunk at the cursor out of the buffer. */
  function TakeNext(b: Buf): Buf
    requires b.cursor in b.pending
  {
    b.(pending := b.pending - {b.cursor}, pendBytes := b.pendBytes - |b.pending[b.cursor]|)
  }

  /** Writes buffered successors for as long as one starts at the cursor;
      `out(k)` is the fate of the k-th write. */
  function Drain(b: Buf, file: seq<byte>, out: nat -> Outcome, k: nat): Effect
    decreases |b.pending|
  {
    if b.cursor !in b.pending then Effect(b, file, Fine)
    else
      var e := WriteEffect(TakeNext(b), file, b.pending[b.cursor], out(k));
      if e.status.Fine? then Drain(e.buf, e.file, out, k + 1) else e
  }

  predicate HasRoom(b: Buf, data: seq<byte>) {
    b.pendBytes + |data| <= MAX_PENDING
  }

  function Hold(b: Buf, off: nat, data: seq<byte>): Buf {
    if off !in b.pending && HasRoom(b, data)
    then b.(pending := b.pending[off := data], pendBytes := b.pendBytes + |data|)
    else b
  }

  /** What one CHUNK frame does to a transfer and its file. */
  function Chunk(b: Buf, file: seq<byte>, off: nat, data: seq<byte>, out: nat -> Outcome): Effect {
    if off > b.size || |data| > b.size - off then Effect(b, file, OutOfBounds)
    else if off == b.cursor then
      var e := WriteEffect(b, file, data, out(0));
      if e.status.Fine? then Drain(e.buf, e.file, out, 1) else e
    else if off > b.cursor then Effect(Hold(b, off, data), file, Fine)
    else Effect(b, file, Fine)
  }

  /** The remaining quota budget pays for every byte still missing. */
  predicate Covered(b: Buf) {
    b.budget < 0 || b.budget >= b.size - b.cursor
  }

  /** The bounds every transfer keeps whatever frames it is sent. */
  ghost predicate BufOk(b: Buf) {
    && b.cursor <= b.size
    && (forall o :: o in b.pending ==> o + |b.pending[o]| <= b.size)
    && b.cursor !in b.pending
    && b.pendBytes == TotalLen(b.pending)
    && b.pendBytes <= MAX_PENDING
  }

  /** BufOk while a drain is under way: the cursor may have reached a buffered chunk. */
  ghost predicate DrainOk(b: Buf) {
    && b.cursor <= b.size
    && (forall o :: o in b.pending ==> o + |b.pending[o]| <= b.size)
    && b.pendBytes == TotalLen(b.pending)
    && b.pendBytes <= MAX_PENDING
  }

  /** The file reaches the cursor and never past the declared size, unless it did before. */
  ghost predicate FileBounds(b: Buf, file: seq<byte>, start: nat) {
    b.cursor <= |file| <= Max(start, b.size)
  }

  lemma TakeNextKeeps(b: Buf)
    requires DrainOk(b) && b.cursor in b.pending
    ensures BufOk(TakeNext(b)) && b.cursor + |b.pending[b.cursor]| <= b.size
  {
    TotalLenRemove(b.pending, b.cursor);
  }

  lemma {:induction false} DrainKeeps(b: Buf, file: seq<byte>, out: nat -> Outcome, k: nat, start: nat)
    requires DrainOk(b) && FileBounds(b, file, start)
    ensures var e := Drain(b, file, out, k);
            BufOk(e.buf) && FileBounds(e.buf, e.file, start) && e.buf.size == b.size
            && b.cursor <= e.buf.cursor && |file| <= |e.file|
    decreases |b.pending|
  {
    if b.cursor in b.pending {
      TakeNextKeeps(b);
      var e := WriteEffect(TakeNext(b), file, b.pending[b.cursor], out(k));
      if e.status.Fine? { DrainKeeps(e.buf, e.file, out, k + 1, start); }
    }
  }

  /** Any CHUNK frame, with any fate of its writes, keeps the transfer in bounds. */
  lemma ChunkKeeps(b: Buf, file: seq<byte>, off: nat, data: seq<byte>, out: nat -> Outcome, start: nat)
    requires BufOk(b) && FileBounds(b, file, start)
    ensures var e := Chunk(b, file, off, data, out);
            BufOk(e.buf) && FileBounds(e.buf, e.file, start) && e.buf.size == b.size
            && b.cursor <= e.buf.cursor && |file| <= |e.file|
  {
    if off <= b.size && |data| <= b.size - off {
      if off == b.cursor {
        var e := WriteEffect(b, file, data, out(0));
        if e.status.Fine? { DrainKeeps(e.buf, e.file, out, 1, start); }
      } else if off > b.cursor && off !in b.pending {
        TotalLenAdd(b.pending, off, data);
      }
    }
  }

  // ---- what a chunk is answered ------------------------------------------

  lemma {:induction false} DrainLands(b: Buf, file: seq<byte>, k: nat)
    requires DrainOk(b) && Covered(b)
    ensures Drain(b, file, Lands, k).status == Fine
    decreases |b.pending|
  {
    if b.cursor in b.pending {
      TakeNextKeeps(b);
      var e := WriteEffect(TakeNext(b), file, b.pending[b.cursor], Lands(k));
      DrainLands(e.buf, e.file, k + 1);
    }
  }

  lemma {:induction false} DrainInBounds(b: Buf, file: seq<byte>, out: nat -> Outcome, k: nat)
    ensures Drain(b, file, out, k).status != OutOfBounds
    decreases |b.pending|
  {
    if b.cursor in b.pending {
      var e := WriteEffect(TakeNext(b), file, b.pending[b.cursor], out(k));
      if e.status.Fine? { DrainInBounds(e.buf, e.file, out, k + 1); }
    }
  }

  /** Whatever its writes meet, a chunk is refused as out of bounds exactly if it
      does not end within the declared size. One that does is acknowledged: ahead
      of the cursor, where it is kept if its place is free and there is room and
      no byte of the file changes; behind the cursor, where it changes nothing;
      and at the cursor, past which the file then reaches, if its writes land and
      the budget pays for the rest. */
  lemma ChunkAnswered(b: Buf, file: seq<byte>, off: nat, data: seq<byte>, out: nat -> Outcome)
    requires BufOk(b)
    ensures var e := Chunk(b, file, off, data, out);
            && (e.status == OutOfBounds <==> off + |data| > b.size)
            && (e.status == OutOfBounds ==> e.buf == b && e.file == file)
            && (b.cursor < off && off + |data| <= b.size ==>
                  && e.status == Fine && e.file == file && e.buf.cursor == b.cursor && e.buf.budget == b.budget
                  && (forall o :: o in e.buf.pending <==>
                        o in b.pending || (o == off && TotalLen(b.pending) + |data| <= 16 * 48 * 1024))
                  && (forall o :: o in e.buf.pending ==> e.buf.pending[o] == if o in b.pending then b.pending[o] else data))
            && (off < b.cursor && off + |data| <= b.size ==> e == Effect(b, file, Fine))
    ensures var e := Chunk(b, file, off, data, Lands);
            Covered(b) && off + |data| <= b.size ==>
              e.status == Fine && (off == b.cursor ==> e.buf.cursor >= off + |data|)
  {
    if off == b.cursor && off + |data| <= b.size {
      var e := WriteEffect(b, file, data, out(0));
      if e.status.Fine? { DrainInBounds(e.buf, e.file, out, 1); }
      if Covered(b) { LandsAtCursor(b, file, data); }
    }
  }

  lemma LandsAtCursor(b: Buf, file: seq<byte>, data: seq<byte>)
    requires BufOk(b) && Covered(b) && b.cursor + |data| <= b.size
    ensures var e := Chunk(b, file, b.cursor, data, Lands);
            e.status == Fine && e.buf.cursor >= b.cursor + |data|
  {
    var e := WriteEffect(b, file, data, Lands(0));
    DrainLands(e.buf, e.file, 1);
    DrainAdvances(e.buf, e.file, Lands, 1);
  }

  lemma {:induction false} DrainAdvances(b: Buf, file: seq<byte>, out: nat -> Outcome, k: nat)
    ensures Drain(b, file, out, k).buf.cursor >= b.cursor
    decreases |b.pending|
  {
    if b.cursor in b.pending {
      var e := WriteEffect(TakeNext(b), file, b.pending[b.cursor], out(k));
      if e.status.Fine? { DrainAdvances(e.buf, e.file, out, k + 1); }
    }
  }

  /** What a chunk at the cursor is answered when its own write does not land:
      nothing changes if the file was taken over or the budget does not pay for
      it; a write that fails is charged, and leaves the cursor and the buffer. */
  lemma ChunkFails(b: Buf, file: seq<byte>, data: seq<byte>, out: nat -> Outcome)
    requires b.cursor + |data| <= b.size && !out(0).Written?
    ensures var e := Chunk(b, file, b.cursor, data, out);
            var short := b.budget >= 0 && |data| > b.budget;
            && (e.status == Superseded <==> out(0).TakenOver?)
            && (e.status == OverQuota <==> short && !out(0).TakenOver?)
            && (out(0).TakenOver? || short ==> e.buf == b && e.file == file)
            && (out(0).Torn? && !short ==>
                  && e.status == WriteError(out(0).diskFull) && e.buf.cursor == b.cursor && e.buf.pending == b.pending
                  && (b.budget >= 0 ==> e.buf.budget == b.budget - |data|))
  {
  }

  // ---- one content -------------------------------------------------------

  ghost predicate IsSlice(content: seq<byte>, off: nat, data: seq<byte>) {
    off + |data| <= |content| && data == content[off..off + |data|]
  }

  /** The file is a prefix of `content` that reaches the cursor, and every
      buffered chunk is a slice of it. */
  ghost predicate PrefixOf(b: Buf, file: seq<byte>, content: seq<byte>) {
    && b.cursor <= |file|
    && file <= content
    && forall o :: o in b.pending ==> IsSlice(content, o, b.pending[o])
  }

  lemma OverwriteSlice(file: seq<byte>, off: nat, data: seq<byte>, content: seq<byte>)
    requires off <= |file| && file <= content && IsSlice(content, off, data)
    ensures Overwrite(file, off, data) == content[..Max(|file|, off + |data|)]
  {
  }

  /** A write of a slice keeps the file a prefix, torn or not. */
  lemma WriteAtPrefix(b: Buf, file: seq<byte>, data: seq<byte>, out: Outcome, content: seq<byte>)
    requires PrefixOf(b, file, content) && IsSlice(content, b.cursor, data)
    ensures var e := WriteEffect(b, file, data, out); PrefixOf(e.buf, e.file, content)
  {
    OverwriteSlice(file, b.cursor, data, content);
    match out
    case Torn(n, _) =>
      var d := data[..Min(n, |data|)];
      assert d == content[b.cursor..b.cursor + |d|];
      OverwriteSlice(file, b.cursor, d, content);
    case _ =>
  }

  lemma {:induction false} DrainPrefix(b: Buf, file: seq<byte>, out: nat -> Outcome, k: nat, content: seq<byte>)
    requires PrefixOf(b, file, content)
    ensures var e := Drain(b, file, out, k); PrefixOf(e.buf, e.file, content)
    decreases |b.pending|
  {
    if b.cursor in b.pending {
      WriteAtPrefix(TakeNext(b), file, b.pending[b.cursor], out(k), content);
      var e := WriteEffect(TakeNext(b), file, b.pending[b.cursor], out(k));
      if e.status.Fine? { DrainPrefix(e.buf, e.file, out, k + 1, content); }
    }
  }

  /** Chunks that are slices of one content, in any order and with any torn
      writes, never make the file anything but a prefix of that content. */
  lemma ChunkPrefix(b: Buf, file: seq<byte>, off: nat, data: seq<byte>, out: nat -> Outcome, content: seq<byte>)
    requires PrefixOf(b, file, content) && IsSlice(content, off, data)
    ensures var e := Chunk(b, file, off, data, out); PrefixOf(e.buf, e.file, content)
  {
    if off == b.cursor && off <= b.size && |data| <= b.size - off {
      WriteAtPrefix(b, file, data, out(0), content);
      var e := WriteEffect(b, file, data, out(0));
      if e.status.Fine? { DrainPrefix(e.buf, e.file, out, 1, content); }
    }
  }

  // ---- a partition delivered in any order --------------------------------

  /** Cut points cuts[0] < cuts[1] < ... of a content from a resume offset
      cuts[0] to its end; no piece is empty. */
  ghost predicate IsPartition(cuts: seq<nat>, content: seq<byte>) {
    && |cuts| >= 1 && cuts[|cuts| - 1] == |content|
    && forall i, j :: 0 <= i < j < |cuts| ==> cuts[i] < cuts[j]
  }

  ghost predicate Piece(cuts: seq<nat>, i: int) { 0 <= i < |cuts| - 1 }

  ghost function PieceOf(cuts: seq<nat>, content: seq<byte>, i: nat): seq<byte>
    requires IsPartition(cuts, content) && Piece(cuts, i)
  {
    content[cuts[i]..cuts[i + 1]]
  }

  /** Whether a piece that arrives now is thrown away for want of room. */
  ghost predicate Dropped(b: Buf, cuts: seq<nat>, content: seq<byte>, i: nat)
    requires IsPartition(cuts, content) && Piece(cuts, i)
  {
    cuts[i] > b.cursor && cuts[i] !in b.pending && !HasRoom(b, PieceOf(cuts, content, i))
  }

  /** The pieces kept once piece i arrived. */
  ghost function KeptAfter(b: Buf, cuts: seq<nat>, content: seq<byte>, kept: set<nat>, i: nat): set<nat>
    requires IsPartition(cuts, content) && Piece(cuts, i)
  {
    if Dropped(b, cuts, content, i) then kept else kept + {i}
  }

  /** The transfer after a list of pieces arrived, and the pieces kept. */
  ghost function Arrive(b: Buf, file: seq<byte>, cuts: seq<nat>, content: seq<byte>, order: seq<nat>, kept: set<nat>)
    : (r: (Buf, set<nat>))
    requires IsPartition(cuts, content)
    requires forall i :: i in order ==> Piece(cuts, i)
    decreases |order|
  {
    if order == [] then (b, kept)
    else
      var i := order[0];
      assert i in order && Piece(cuts, i);
      var e := Chunk(b, file, cuts[i], PieceOf(cuts, content, i), Lands);
      Arrive(e.buf, e.file, cuts, content, order[1..], KeptAfter(b, cuts, content, kept, i))
  }

  ghost predicate Buffered(b: Buf, cuts: seq<nat>, content: seq<byte>, i: int)
    requires IsPartition(cuts, content) && Piece(cuts, i)
  {
    cuts[i] in b.pending && b.pending[cuts[i]] == PieceOf(cuts, content, i)
  }

  /** `o` starts a kept piece numbered n or later. */
  ghost predicate KeptCut(cuts: seq<nat>, kept: set<nat>, n: nat, o: nat) {
    exists i :: i in kept && Piece(cuts, i) && i >= n && cuts[i] == o
  }

  /** Pieces 0..n-1 are kept and the cursor is at cuts[n]; exactly the kept
      pieces from n on are buffered. */
  ghost predicate AtRun(b: Buf, cuts: seq<nat>, content: seq<byte>, kept: set<nat>, n: nat)
    requires IsPartition(cuts, content)
  {
    && n < |cuts| && b.size == |content| && Covered(b)
    && b.cursor == cuts[n]
    && (forall i :: i in kept ==> Piece(cuts, i))
    && (forall i :: 0 <= i < n ==> i in kept)
    && (forall i :: i in kept && i >= n ==> Buffered(b, cuts, content, i))
    && (forall o :: o in b.pending ==> KeptCut(cuts, kept, n, o))
  }

  lemma CutsDiffer(cuts: seq<nat>, content: seq<byte>, i: int, j: int)
    requires IsPartition(cuts, content) && 0 <= i < |cuts| && 0 <= j < |cuts|
    ensures cuts[i] == cuts[j] <==> i == j
    ensures cuts[i] < cuts[j] <==> i < j
    ensures cuts[i] <= |content|
  {
  }

  /** Writing piece n at the cursor lengthens the run by one. */
  lemma AdvanceRun(b: Buf, b': Buf, cuts: seq<nat>, content: seq<byte>, kept: set<nat>, n: nat)
    requires IsPartition(cuts, content) && AtRun(b, cuts, content, kept, n) && Piece(cuts, n)
    requires b' == b.(pending := b.pending - {cuts[n]}, pendBytes := b'.pendBytes, cursor := cuts[n + 1],
                      budget := Debit(b.budget, cuts[n + 1] - cuts[n]))
    ensures AtRun(b', cuts, content, kept + {n}, n + 1)
  {
    forall i | i in kept + {n} && i >= n + 1 ensures Buffered(b', cuts, content, i) {
      assert Buffered(b, cuts, content, i);
      CutsDiffer(cuts, content, i, n);
    }
    forall o | o in b'.pending ensures KeptCut(cuts, kept + {n}, n + 1, o) {
      assert KeptCut(cuts, kept, n, o);
      var i :| i in kept && Piece(cuts, i) && i >= n && cuts[i] == o;
      assert i in kept + {n} && i != n;
    }
  }

  lemma CursorKept(b: Buf, cuts: seq<nat>, content: seq<byte>, kept: set<nat>, n: nat)
    requires IsPartition(cuts, content) && AtRun(b, cuts, content, kept, n)
    ensures b.cursor in b.pending ==> n in kept && Piece(cuts, n)
  {
  }

  /** A buffered chunk at the cursor is the kept piece n. */
  lemma CursorPiece(b: Buf, cuts: seq<nat>, content: seq<byte>, kept: set<nat>, n: nat)
    requires IsPartition(cuts, content) && AtRun(b, cuts, content, kept, n) && b.cursor in b.pending
    ensures n in kept && Piece(cuts, n)
    ensures b.cursor + |b.pending[b.cursor]| == cuts[n + 1]
  {
  }

  /** One turn of the drain. */
  lemma DrainOneRun(b: Buf, file: seq<byte>, cuts: seq<nat>, content: seq<byte>, kept: set<nat>, n: nat)
    requires IsPartition(cuts, content) && AtRun(b, cuts, content, kept, n) && b.cursor in b.pending
    ensures var e := WriteEffect(TakeNext(b), file, b.pending[b.cursor], Written);
            e.status.Fine? && n + 1 < |cuts| && AtRun(e.buf, cuts, content, kept, n + 1)
  {
    CursorPiece(b, cuts, content, kept, n);
    var e := WriteEffect(TakeNext(b), file, b.pending[b.cursor], Written);
    AdvanceRun(b, e.buf, cuts, content, kept, n);
    assert kept + {n} == kept;
  }

  /** Draining moves the cursor to the end of the run. */
  lemma {:induction false} DrainRun(b: Buf, file: seq<byte>, cuts: seq<nat>, content: seq<byte>,
                                    kept: set<nat>, n: nat, k: nat) returns (m: nat)
    requires IsPartition(cuts, content) && AtRun(b, cuts, content, kept, n)
    ensures m !in kept && AtRun(Drain(b, file, Lands, k).buf, cuts, content, kept, m)
    decreases |b.pending|
  {
    if b.cursor in b.pending {
      DrainOneRun(b, file, cuts, content, kept, n);
      var e := WriteEffect(TakeNext(b), file, b.pending[b.cursor], Lands(k));
      m := DrainRun(e.buf, e.file, cuts, content, kept, n + 1, k + 1);
    } else {
      m := n;
      assert n in kept ==> Buffered(b, cuts, content, n);
    }
  }

  /** A piece already buffered was kept. */
  lemma BufferedIsKept(b: Buf, cuts: seq<nat>, content: seq<byte>, kept: set<nat>, n: nat, i: nat)
    requires IsPartition(cuts, content) && Piece(cuts, i)
    requires AtRun(b, cuts, content, kept, n) && cuts[i] in b.pending
    ensures i in kept
  {
    assert KeptCut(cuts, kept, n, cuts[i]);
    var j :| j in kept && Piece(cuts, j) && j >= n && cuts[j] == cuts[i];
    CutsDiffer(cuts, content, i, j);
  }

  lemma HoldNew(b: Buf, b': Buf, cuts: seq<nat>, content: seq<byte>, kept: set<nat>, n: nat, i: nat)
    requires IsPartition(cuts, content) && Piece(cuts, i) && i > n
    requires AtRun(b, cuts, content, kept, n) && cuts[i] !in b.pending
    requires b' == b.(pending := b.pending[cuts[i] := PieceOf(cuts, content, i)], pendBytes := b'.pendBytes)
    ensures AtRun(b', cuts, content, kept + {i}, n)
  {
    forall j | j in kept + {i} && j >= n ensures Buffered(b', cuts, content, j) {
      CutsDiffer(cuts, content, i, j);
      assert j in kept ==> Buffered(b, cuts, content, j);
    }
    forall o | o in b'.pending ensures KeptCut(cuts, kept + {i}, n, o) {
      if o == cuts[i] {
        assert i in kept + {i};
      } else {
        assert KeptCut(cuts, kept, n, o);
        var j :| j in kept && Piece(cuts, j) && j >= n && cuts[j] == o;
        assert j in kept + {i};
      }
    }
  }

  /** Buffering piece i, later than the run, keeps the run where it is. */
  lemma HoldRun(b: Buf, cuts: seq<nat>, content: seq<byte>, kept: set<nat>, n: nat, i: nat)
    requires IsPartition(cuts, content) && Piece(cuts, i) && i > n
    requires AtRun(b, cuts, content, kept, n)
    ensures AtRun(Hold(b, cuts[i], PieceOf(cuts, content, i)), cuts, content, KeptAfter(b, cuts, content, kept, i), n)
  {
    CutsDiffer(cuts, content, n, i);
    if cuts[i] in b.pending {
      BufferedIsKept(b, cuts, content, kept, n, i);
      assert kept + {i} == kept;
    } else if HasRoom(b, PieceOf(cuts, content, i)) {
      HoldNew(b, Hold(b, cuts[i], PieceOf(cuts, content, i)), cuts, content, kept, n, i);
    }
  }

  /** The missing piece arrives: the run grows over it and what was buffered behind it. */
  lemma ArriveNext(b: Buf, file: seq<byte>, cuts: seq<nat>, content: seq<byte>, kept: set<nat>, n: nat) returns (m: nat)
    requires IsPartition(cuts, content) && Piece(cuts, n)
    requires AtRun(b, cuts, content, kept, n) && n !in kept
    ensures m !in kept + {n}
    ensures AtRun(Chunk(b, file, cuts[n], PieceOf(cuts, content, n), Lands).buf, cuts, content, kept + {n}, m)
  {
    CutsDiffer(cuts, content, n, n + 1);
    CutsDiffer(cuts, content, n + 1, n);
    var e := WriteEffect(b, file, PieceOf(cuts, content, n), Written);
    CursorKept(b, cuts, content, kept, n);
    assert b.pending - {cuts[n]} == b.pending;
    AdvanceRun(b, e.buf, cuts, content, kept, n);
    m := DrainRun(e.buf, e.file, cuts, content, kept + {n}, n + 1, 1);
  }

  /** What a piece other than the missing one does to the buffer. */
  lemma OtherPiece(b: Buf, file: seq<byte>, cuts: seq<nat>, content: seq<byte>, n: nat, i: nat)
    requires IsPartition(cuts, content) && Piece(cuts, i) && i != n < |cuts|
    requires b.size == |content| && b.cursor == cuts[n]
    ensures var d := PieceOf(cuts, content, i);
            Chunk(b, file, cuts[i], d, Lands).buf == if i > n then Hold(b, cuts[i], d) else b
    ensures i < n ==> !Dropped(b, cuts, content, i)
  {
    CutsDiffer(cuts, content, i, n);
    CutsDiffer(cuts, content, i + 1, i);
  }

  /** One more piece: the cursor ends at the end of the longer run. */
  lemma ArriveOne(b: Buf, file: seq<byte>, cuts: seq<nat>, content: seq<byte>, kept: set<nat>, n: nat, i: nat)
    returns (m: nat)
    requires IsPartition(cuts, content) && Piece(cuts, i)
    requires AtRun(b, cuts, content, kept, n) && n !in kept
    ensures m !in KeptAfter(b, cuts, content, kept, i)
    ensures AtRun(Chunk(b, file, cuts[i], PieceOf(cuts, content, i), Lands).buf,
                  cuts, content, KeptAfter(b, cuts, content, kept, i), m)
  {
    if i == n {
      m := ArriveNext(b, file, cuts, content, kept, n);
    } else {
      m := n;
      OtherPiece(b, file, cuts, content, n, i);
      if i > n { HoldRun(b, cuts, content, kept, n, i); } else { assert kept + {i} == kept; }
    }
  }

  /** The pieces of a partition, delivered in any order with any repeats, leave
      the cursor at the end of the longest run of kept pieces. */
  lemma {:induction false} ArriveRun(b: Buf, file: seq<byte>, cuts: seq<nat>, content: seq<byte>,
                                     order: seq<nat>, kept: set<nat>, n: nat) returns (m: nat)
    requires IsPartition(cuts, content)
    requires forall i :: i in order ==> Piece(cuts, i)
    requires AtRun(b, cuts, content, kept, n) && n !in kept
    ensures var r := Arrive(b, file, cuts, content, order, kept);
            m !in r.1 && AtRun(r.0, cuts, content, r.1, m)
    decreases |order|
  {
    m := n;
    if order != [] {
      var i := order[0];
      assert i in order && Piece(cuts, i);
      var e := Chunk(b, file, cuts[i], PieceOf(cuts, content, i), Lands);
      m := ArriveOne(b, file, cuts, content, kept, n, i);
      m := ArriveRun(e.buf, e.file, cuts, content, order[1..], KeptAfter(b, cuts, content, kept, i), m);
    }
  }

  ghost predicate NoneDropped(b: Buf, file: seq<byte>, cuts: seq<nat>, content: seq<byte>, order: seq<nat>)
    requires IsPartition(cuts, content)
    requires forall i :: i in order ==> Piece(cuts, i)
    decreases |order|
  {
    order == [] ||
    (assert order[0] in order && Piece(cuts, order[0]);
     && !Dropped(b, cuts, content, order[0])
     && var e := Chunk(b, file, cuts[order[0]], PieceOf(cuts, content, order[0]), Lands);
        NoneDropped(e.buf, e.file, cuts, content, order[1..]))
  }

  lemma {:induction false} NoneDroppedKeepsAll(b: Buf, file: seq<byte>, cuts: seq<nat>, content: seq<byte>,
                                               order: seq<nat>, kept: set<nat>)
    requires IsPartition(cuts, content)
    requires forall i :: i in order ==> Piece(cuts, i)
    requires NoneDropped(b, file, cuts, content, order)
    ensures Arrive(b, file, cuts, content, order, kept).1 == kept + set i | i in order
    decreases |order|
  {
    if order != [] {
      assert order[0] in order && Piece(cuts, order[0]);
      var e := Chunk(b, file, cuts[order[0]], PieceOf(cuts, content, order[0]), Lands);
      NoneDroppedKeepsAll(e.buf, e.file, cuts, content, order[1..], kept + {order[0]});
    }
  }

  /** From a resume at cuts[0], with any budget that pays for the rest (or no
      quota at all) and with nothing dropped for room, the cursor is the
      end of the longest run of delivered pieces: piece m is the first missing one. */
  lemma LongestRun(file: seq<byte>, cuts: seq<nat>, content: seq<byte>, order: seq<nat>, budget: int) returns (m: nat)
    requires IsPartition(cuts, content)
    requires forall i :: i in order ==> Piece(cuts, i)
    requires Covered(Buf(|content|, cuts[0], map[], 0, budget))
    requires NoneDropped(Buf(|content|, cuts[0], map[], 0, budget), file, cuts, content, order)
    ensures m < |cuts| && m !in order && forall i :: 0 <= i < m ==> i in order
    ensures Arrive(Buf(|content|, cuts[0], map[], 0, budget), file, cuts, content, order, {}).0.cursor == cuts[m]
  {
    var b := Buf(|content|, cuts[0], map[], 0, budget);
    NoneDroppedKeepsAll(b, file, cuts, content, order, {});
    m := ArriveRun(b, file, cuts, content, order, {}, 0);
    forall i | 0 <= i < m ensures i in order {
      assert i in Arrive(b, file, cuts, content, order, {}).1;
    }
  }

  // ---- the transfer object -----------------------------------------------

  datatype Reply = Ack(off: nat) | Failed(status: Status)

  class RecvTransfer {
    const size: nat
    var cursor: nat
    var pending: map<nat, seq<byte>>
    var pendBytes: int
    var quotaBudget: int
    var file: seq<byte>

    ghost function State(): Buf
      reads this
    {
      Buf(size, cursor, pending, pendBytes, quotaBudget)
    }

    /** A transfer as INIT registers it, resuming at `resume`. */
    constructor (size: nat, resume: nat, file: seq<byte>, quotaBudget: int)
      requires resume <= size
      ensures State() == Buf(size, resume, map[], 0, quotaBudget) && this.file == file
      ensures BufOk(State())
    {
      this.size := size;
      this.cursor := resume;
      this.pending := map[];
      this.pendBytes := 0;
      this.quotaBudget := quotaBudget;
      this.file := file;
    }

    method WriteAt(data: seq<byte>, out: Outcome) returns (status: Status)
      modifies this
      ensures Effect(State(), file, status) == WriteEffect(old(State()), old(file), data, out)
    {
      if out.TakenOver? { return Superseded; }
      if quotaBudget >= 0 {
        if |data| > quotaBudget { return OverQuota; }
        quotaBudget := quotaBudget - |data|;
      }
      match out
      case Torn(n, full) =>
        file := Overwrite(file, cursor, data[..Min(n, |data|)]);
        return WriteError(full);
      case Written =>
        file := Overwrite(file, cursor, data);
        cursor := cursor + |data|;
        return Fine;
    }

    /** The handler with its drain loop is the specification `Chunk`. */
    method HandleChunk(off: nat, data: seq<byte>, out: nat -> Outcome) returns (reply: Reply)
      modifies this
      ensures var e := Chunk(old(State()), old(file), off, data, out);
              State() == e.buf && file == e.file
              && reply == if e.status.Fine? then Ack(e.buf.cursor) else Failed(e.status)
    {
      if off > size || |data| > size - off { return Failed(OutOfBounds); }
      if off == cursor {
        var status := WriteAt(data, out(0));
        if !status.Fine? { return Failed(status); }
        var k := 1;
        ghost var first := Drain(State(), file, out, 1);
        while cursor in pending
          invariant k >= 1
          invariant Drain(State(), file, out, k) == first
          decreases |pending|
        {
          var next := pending[cursor];
          ghost var before, kept := State(), pending;
          pending := pending - {cursor};
          pendBytes := pendBytes - |next|;
          assert State() == TakeNext(before);
          status := WriteAt(next, out(k));
          if !status.Fine? { return Failed(status); }
          assert State().pending == kept - {before.cursor};
          k := k + 1;
        }
      } else if off > cursor {
        if off !in pending && pendBytes + |data| <= MAX_PENDING {
          pending := pending[off := data];
          pendBytes := pendBytes + |data|;
        }
      }
      return Ack(cursor);
    }
  }
}
