/**
 * Runs without failures: nothing gets stuck, everything ends, and it ends with
 * the file stored and every byte accounted for.
 */
module Progress {
  import opened Prelude
  import opened Reassembly
  import opened Admission
  import opened Session
  import opened Window

  /** No write, hash, rename or connection fails and nobody times out. */
  ghost predicate Quiet(st: Step) {
    match st
    case TimeoutStep => false
    case BreakStep => false
    case ReceiveStep(out, ioOk) => ioOk && forall k :: out(k) == Written
    case _ => true
  }

  /** The chunks the sender cuts from `from` to `upto`. */
  ghost function Pieces(content: seq<byte>, from: nat, upto: nat): seq<Up>
    decreases if from < |content| then |content| - from else 0
  {
    if from >= upto || from >= |content| then []
    else
      var end := Min(from + CHUNK_SIZE, |content|);
      [MChunk(from, content[from..end])] + Pieces(content, end, upto)
  }

  /** Cutting one more chunk appends it. */
  lemma {:induction false} PiecesAppend(content: seq<byte>, from: nat, upto: nat)
    requires from <= upto < |content| && OnGrid(from, upto)
    ensures var end := Min(upto + CHUNK_SIZE, |content|);
            Pieces(content, from, end) == Pieces(content, from, upto) + [MChunk(upto, content[upto..end])]
    decreases upto - from
  {
    var end := Min(upto + CHUNK_SIZE, |content|);
    if from == upto {
      assert Pieces(content, end, end) == [];
    } else {
      assert from + CHUNK_SIZE <= upto;
      PiecesAppend(content, from + CHUNK_SIZE, upto);
    }
  }

  lemma PiecesEmpty(content: seq<byte>, from: nat, upto: nat)
    requires from <= upto <= |content|
    ensures Pieces(content, from, upto) == [] <==> from == upto
  {
  }

  ghost predicate AllAcks(down: seq<Down>) {
    forall m :: m in down ==> m.MAck?
  }

  /** The newest ACK on its way, or else the one already read, is the cursor. */
  ghost predicate Informed(s: State, acks: seq<Down>) {
    if acks == [] then s.acked == s.buf.cursor else acks[|acks| - 1] == MAck(s.buf.cursor)
  }

  ghost predicate Receiving(s: State) {
    && s.registered && s.stored.None? && s.done.None? && !s.rpc.Stopped?
    && s.buf.pending == map[] && Covered(s.buf)
    && AllAcks(s.down) && Informed(s, s.down)
  }

  /** What a failure-free run looks like at each stage. */
  ghost predicate OnTrack(s: State) {
    match s.spc
    case Gate => Receiving(s) && s.up == Pieces(s.content, s.buf.cursor, s.offset)
    case Parked(seen) =>
      Receiving(s) && s.up == Pieces(s.content, s.buf.cursor, s.offset) && s.offset - seen >= WINDOW_BYTES
    case Awaiting =>
      && s.offset == s.size
      && ((Receiving(s) && s.up == Pieces(s.content, s.buf.cursor, s.offset) + [MDone])
          || (s.up == [] && s.stored == Some(s.content) && Concluding(s)))
    case Finished(ok, sent, resumed) =>
      && ok && sent == s.size - s.resume && resumed == s.resume && s.stored == Some(s.content)
      && s.up == [] && s.down == [] && s.rpc.Stopped?
    case GaveUp => false
  }

  /** COMPLETE is on its way, or already with the sender. */
  ghost predicate Concluding(s: State) {
    if s.done.None?
    then |s.down| > 0 && s.down[|s.down| - 1] == MComplete(true) && AllAcks(s.down[..|s.down| - 1]) && !s.rpc.Stopped?
    else s.done == Some(Completed(true)) && s.down == [] && s.rpc.Stopped?
  }

  ghost predicate ProgressInv(s: State) {
    WindowInv(s) && NoLostWakeup(s) && PrefixInv(s) && OnTrack(s)
  }

  lemma BeginsOnTrack(s: State, partial: seq<byte>, budget: int)
    requires Begins(s, partial, budget) && s.size == |s.content| && partial <= s.content && Covered(s.buf)
    ensures ProgressInv(s)
  {
  }

  lemma SendOnTrack(s: State)
    requires ProgressInv(s) && s.spc.Gate?
    ensures OnTrack(Send(s))
  {
    SendWindow(s);
    if s.offset < s.size && s.offset - s.acked < WINDOW_BYTES {
      GridApart(s.resume, s.buf.cursor, s.offset);
      PiecesAppend(s.content, s.buf.cursor, s.offset);
    }
  }

  lemma GridApart(resume: nat, a: nat, b: nat)
    requires OnGrid(resume, a) && OnGrid(resume, b) && a <= b
    ensures OnGrid(a, b)
  {
  }

  /** The receiver gets the chunk at its cursor, writes it and acknowledges. */
  lemma ReceiveChunkOnTrack(s: State, out: nat -> Outcome)
    requires ProgressInv(s) && s.up != [] && s.up[0].MChunk? && forall k :: out(k) == Written
    ensures OnTrack(Receive(s, out, true))
  {
    var s' := Receive(s, out, true);
    var c := s.buf.cursor;
    assert s.spc.Gate? || s.spc.Parked? || s.spc.Awaiting?;
    assert c < s.offset by { PiecesEmpty(s.content, c, s.offset); }
    var end := Min(c + CHUNK_SIZE, |s.content|);
    assert s.up[0] == MChunk(c, s.content[c..end]);
    assert s'.buf.cursor == end && s'.buf.pending == map[];
    assert s'.down == s.down + [MAck(end)];
    if s.spc.Awaiting? {
      assert s.up[1..] == Pieces(s.content, end, s.offset) + [MDone];
    } else {
      assert s.up[1..] == Pieces(s.content, end, s.offset);
    }
  }

  lemma ReceiveDoneOnTrack(s: State, out: nat -> Outcome)
    requires ProgressInv(s) && s.up != [] && s.up[0].MDone?
    ensures OnTrack(Receive(s, out, true))
  {
    var s' := Receive(s, out, true);
    PiecesEmpty(s.content, s.buf.cursor, s.offset);
    assert forall m :: m in Pieces(s.content, s.buf.cursor, s.offset) ==> m.MChunk? by {
      PiecesAreChunks(s.content, s.buf.cursor, s.offset);
    }
    assert s.spc.Awaiting? && s.buf.cursor == s.size;
    assert s.file == s.content;
    assert s'.down[..|s'.down| - 1] == s.down;
  }

  lemma {:induction false} PiecesAreChunks(content: seq<byte>, from: nat, upto: nat)
    ensures forall m :: m in Pieces(content, from, upto) ==> m.MChunk?
    decreases if from < |content| then |content| - from else 0
  {
    if from < upto && from < |content| {
      PiecesAreChunks(content, Min(from + CHUNK_SIZE, |content|), upto);
    }
  }

  lemma ReadOnTrack(s: State)
    requires ProgressInv(s) && s.rpc.Reading? && s.down != []
    ensures OnTrack(Read(s))
  {
  }

  lemma StepOnTrack(s: State, st: Step)
    requires ProgressInv(s) && Enabled(s, st) && Quiet(st)
    ensures ProgressInv(Next(s, st))
  {
    StepWindow(s, st);
    StepPrefix(s, st);
    match st
    case SendStep => SendOnTrack(s);
    case ReadStep => ReadOnTrack(s);
    case ReceiveStep(out, ioOk) =>
      if s.up[0].MChunk? { ReceiveChunkOnTrack(s, out); } else { ReceiveDoneOnTrack(s, out); }
    case _ =>
  }

  // ---- nothing gets stuck, everything ends -------------------------------

  ghost function Weight(pc: SenderPc): nat {
    match pc
    case Gate => 12
    case Parked(_) => 11
    case Awaiting => 1
    case _ => 0
  }

  /** Work left: bytes unsent, frames under way, and who must still act. */
  ghost function Work(s: State): int {
    7 * (s.size - s.offset) + Weight(s.spc) + 6 * |s.up| + 5 * |s.down|
    + (if s.rpc.Notifying? then 4 else 0) + (if s.token then 3 else 0) + (if s.done.Some? then 1 else 0)
  }

  lemma SendWorks(s: State)
    requires ProgressInv(s) && s.spc.Gate?
    ensures Work(Send(s)) < Work(s)
  {
  }

  lemma StepWorks(s: State, st: Step)
    requires ProgressInv(s) && Enabled(s, st)
    ensures Work(Next(s, st)) < Work(s) || st.TimeoutStep? || st.BreakStep?
  {
    if st.SendStep? { SendWorks(s); }
  }

  lemma WorkLeft(s: State)
    requires ProgressInv(s)
    ensures Work(s) >= 0
  {
  }

  /** While unfinished, some failure-free step is possible: in particular a
      parked sender always has a chunk, an ACK or a token still to come. */
  lemma NeverStuck(s: State) returns (st: Step)
    requires ProgressInv(s) && !s.spc.Finished?
    ensures Enabled(s, st) && Quiet(st)
  {
    if s.up != [] { st := ReceiveStep(Lands, true); }
    else if s.rpc.Notifying? { st := NotifyStep; }
    else if s.spc.Gate? { st := SendStep; }
    else if s.down != [] && s.rpc.Reading? { st := ReadStep; }
    else if s.spc.Awaiting? { st := DoneStep; }
    else {
      PiecesEmpty(s.content, s.buf.cursor, s.offset);
      st := WakeStep;
    }
  }

  lemma {:induction false} RunOnTrack(s: State, steps: seq<Step>)
    requires ProgressInv(s) && ValidRun(s, steps) && forall st :: st in steps ==> Quiet(st)
    ensures ProgressInv(After(s, steps)) && |steps| + Work(After(s, steps)) <= Work(s)
    decreases |steps|
  {
    if steps != [] {
      assert steps[0] in steps;
      StepOnTrack(s, steps[0]);
      StepWorks(s, steps[0]);
      RunOnTrack(Next(s, steps[0]), steps[1..]);
    }
  }

  /** From a .partial that is a prefix, every failure-free run is bounded, and
      one that cannot go on has ended OK with the content stored. What was on
      disk was not sent again: BytesResumed is its length, BytesSent the rest. */
  lemma QuietRunsEndOk(s: State, partial: seq<byte>, budget: int, steps: seq<Step>)
    requires Begins(s, partial, budget) && s.size == |s.content| && partial <= s.content && Covered(s.buf)
    requires ValidRun(s, steps) && forall st :: st in steps ==> Quiet(st)
    ensures var v := After(s, steps);
            && |steps| <= Work(s)
            && (v.spc.Finished? || exists st :: Enabled(v, st) && Quiet(st))
            && (v.spc.Finished? ==>
                  v.spc == Finished(true, s.size - |partial|, |partial|) && v.stored == Some(s.content))
  {
    StartsWhereItEnds(partial, s.size, budget);
    BeginsOnTrack(s, partial, budget);
    RunOnTrack(s, steps);
    var v := After(s, steps);
    WorkLeft(v);
    if !v.spc.Finished? { var st := NeverStuck(v); }
  }
}
