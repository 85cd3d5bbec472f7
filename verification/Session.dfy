/**
 * One sender and one receiver over two FIFO channels: the sender's loop with
 * its window gate, its reader goroutine with the `acked` counter and the
 * one-slot `notify` channel, and the receiver of Reassembly.
 */
module Session {
  import opened Prelude
  import opened Reassembly
  import opened Admission

  type Digest = seq<byte>

  const WINDOW_BYTES: nat := STREAM_WINDOW * CHUNK_SIZE
  const TWO_64: nat := 0x1_0000_0000_0000_0000

  datatype Up = MChunk(off: nat, data: seq<byte>) | MDone

  datatype Down = MAck(off: nat) | MComplete(ok: bool) | MAbort

  /** Where the sender is; a parked sender remembers the `acked` it loaded. */
  datatype SenderPc =
    | Gate
    | Parked(seen: nat)
    | Awaiting
    | Finished(ok: bool, sent: int, resumed: nat)
    | GaveUp

  datatype ReaderPc = Reading | Notifying | Stopped

  datatype Terminal = Completed(ok: bool) | Broken

  datatype State = State(
    content: seq<byte>, size: nat, resume: nat, sha: seq<byte> -> Digest,
    spc: SenderPc, offset: nat, acked: nat, token: bool,
    rpc: ReaderPc, done: Option<Terminal>,
    up: seq<Up>, down: seq<Down>,
    registered: bool, buf: Buf, file: seq<byte>, stored: Option<seq<byte>>)

  /** The session after INIT-ACK: `partial` is what the receiver had on disk. */
  ghost predicate Begins(s: State, partial: seq<byte>, budget: int) {
    && s.buf == StartBuf(partial, s.size, budget) && s.file == StartFile(partial, s.size)
    && s.resume == s.buf.cursor && s.offset == s.resume && s.acked == s.resume
    && s.spc == Gate && !s.token && s.rpc == Reading && s.done.None?
    && s.up == [] && s.down == [] && s.registered && s.stored.None?
    && s.size < TWO_64
  }

  datatype Step =
    | SendStep
    | WakeStep
    | DoneStep
    | TimeoutStep
    | ReadStep
    | NotifyStep
    | BreakStep
    | ReceiveStep(out: nat -> Outcome, ioOk: bool)

  /** `offset - acked` in uint64. */
  function InFlight(offset: nat, acked: nat): int {
    if offset >= acked then offset - acked else offset - acked + TWO_64
  }

  /** One turn of the sender's loop: the gate, then one chunk or DONE. */
  ghost function Send(s: State): State {
    if s.offset < s.size && InFlight(s.offset, s.acked) >= WINDOW_BYTES then s.(spc := Parked(s.acked))
    else
      var n := if s.offset < |s.content| then Min(CHUNK_SIZE, |s.content| - s.offset) else 0;
      if s.offset < s.size && n > 0 then
        s.(up := s.up + [MChunk(s.offset, s.content[s.offset..s.offset + n])], offset := s.offset + n)
      else s.(up := s.up + [MDone], spc := Awaiting)
  }

  ghost function Conclude(s: State): State
    requires s.done.Some?
  {
    if s.spc == Awaiting && s.done.value.Completed?
    then s.(spc := Finished(s.done.value.ok, s.offset - s.resume, s.resume))
    else s.(spc := GaveUp)
  }

  ghost function Read(s: State): State
    requires s.down != []
  {
    var s1 := s.(down := s.down[1..]);
    match s.down[0]
    case MAck(o) => s1.(acked := Max(s.acked, o), rpc := Notifying)
    case MComplete(ok) => s1.(done := Some(Completed(ok)), rpc := Stopped)
    case MAbort => s1.(done := Some(Broken), rpc := Stopped)
  }

  /** The receiver handles one frame; `ioOk` is whether fsync, reads, the
      claim checks and the rename of a DONE go through. A digest that does not
      match ends the transfer. */
  ghost function Receive(s: State, out: nat -> Outcome, ioOk: bool): State
    requires s.up != []
  {
    var s1 := s.(up := s.up[1..]);
    match s.up[0]
    case MChunk(off, data) =>
      if !s.registered then s1.(down := s.down + [MAbort])
      else
        var e := Chunk(s.buf, s.file, off, data, out);
        s1.(buf := e.buf, file := e.file,
            registered := !(e.status.Superseded? || (e.status.WriteError? && e.status.diskFull)),
            down := s.down + [if e.status.Fine? then MAck(e.buf.cursor) else MComplete(false)])
    case MDone =>
      if s.registered && ioOk && s.buf.cursor == s.size && s.sha(s.file) == s.sha(s.content)
      then s1.(stored := Some(s.file), registered := false, down := s.down + [MComplete(true)])
      else s1.(registered := s.registered && !(ioOk && s.buf.cursor == s.size), down := s.down + [MComplete(false)])
  }

  ghost predicate Enabled(s: State, st: Step) {
    match st
    case SendStep => s.spc.Gate?
    case WakeStep => s.spc.Parked? && s.token
    case DoneStep => (s.spc.Parked? || s.spc.Awaiting?) && s.done.Some?
    case TimeoutStep => s.spc.Parked? || s.spc.Awaiting?
    case ReadStep => s.rpc.Reading? && s.down != []
    case NotifyStep => s.rpc.Notifying?
    case BreakStep => s.rpc.Reading?
    case ReceiveStep(_, _) => s.up != []
  }

  ghost predicate SameJob(s: State, s': State) {
    s'.content == s.content && s'.size == s.size && s'.resume == s.resume && s'.sha == s.sha
  }

  ghost function Next(s: State, st: Step): (s': State)
    requires Enabled(s, st)
    ensures SameJob(s, s')
  {
    match st
    case SendStep => Send(s)
    case WakeStep => s.(token := false, spc := Gate)
    case DoneStep => Conclude(s)
    case TimeoutStep => s.(spc := GaveUp)
    case ReadStep => Read(s)
    case NotifyStep => s.(token := true, rpc := Reading)
    case BreakStep => s.(done := Some(Broken), rpc := Stopped)
    case ReceiveStep(out, ioOk) => Receive(s, out, ioOk)
  }

  ghost predicate ValidRun(s: State, steps: seq<Step>)
    decreases |steps|
  {
    steps == [] || (Enabled(s, steps[0]) && ValidRun(Next(s, steps[0]), steps[1..]))
  }

  ghost function After(s: State, steps: seq<Step>): (s': State)
    requires ValidRun(s, steps)
    ensures SameJob(s, s')
    decreases |steps|
  {
    if steps == [] then s else After(Next(s, steps[0]), steps[1..])
  }

  // ---- an OK result ------------------------------------------------------

  ghost predicate SaysOk(s: State) {
    || MComplete(true) in s.down || s.done == Some(Completed(true)) || (s.spc.Finished? && s.spc.ok)
  }

  /** The receiver says OK only of a file whose digest is the content's. */
  ghost predicate OkMeansStored(s: State) {
    && (SaysOk(s) ==> s.stored.Some?)
    && (s.stored.Some? ==> !s.registered && s.sha(s.stored.value) == s.sha(s.content))
  }

  lemma OkStep(s: State, st: Step)
    requires OkMeansStored(s) && Enabled(s, st)
    ensures OkMeansStored(Next(s, st))
  {
    if st.ReadStep? {
      assert s.down[0] in s.down;
      assert forall m :: m in s.down[1..] ==> m in s.down;
    }
  }

  lemma {:induction false} OkRun(s: State, steps: seq<Step>)
    requires OkMeansStored(s) && ValidRun(s, steps)
    ensures OkMeansStored(After(s, steps))
    decreases |steps|
  {
    if steps != [] {
      OkStep(s, steps[0]);
      OkRun(Next(s, steps[0]), steps[1..]);
    }
  }

  /** Whatever was on disk, whatever fails and whatever size was declared: an OK
      result means that a file with the digest of the content is stored. */
  lemma OkResultMatchesDigest(s: State, partial: seq<byte>, budget: int, steps: seq<Step>)
    requires Begins(s, partial, budget) && ValidRun(s, steps)
    requires After(s, steps).spc.Finished? && After(s, steps).spc.ok
    ensures After(s, steps).stored.Some? && s.sha(After(s, steps).stored.value) == s.sha(s.content)
  {
    OkRun(s, steps);
  }

  // ---- a chunk that fails ------------------------------------------------

  /** DONE is the last frame sent, OK comes only once it was handled, and the
      reader stops at the first thing that ends the transfer. */
  ghost predicate DoneLast(s: State) {
    && (forall i :: 0 <= i < |s.up| && s.up[i].MDone? ==> i == |s.up| - 1 && !s.spc.Gate? && !s.spc.Parked?)
    && (SaysOk(s) ==> s.up == [] && !s.spc.Gate? && !s.spc.Parked?)
    && (s.done.Some? ==> s.rpc.Stopped?)
  }

  lemma ReadDoneLast(s: State)
    requires DoneLast(s) && s.rpc.Reading? && s.down != []
    ensures DoneLast(Read(s))
  {
    assert s.down[0] in s.down;
    assert forall m :: m in s.down[1..] ==> m in s.down;
  }

  lemma ReceiveDoneLast(s: State, out: nat -> Outcome, ioOk: bool)
    requires DoneLast(s) && s.up != []
    ensures DoneLast(Receive(s, out, ioOk))
  {
  }

  lemma StepDoneLast(s: State, st: Step)
    requires DoneLast(s) && Enabled(s, st)
    ensures DoneLast(Next(s, st))
  {
    if st.ReadStep? { ReadDoneLast(s); }
    else if st.ReceiveStep? { ReceiveDoneLast(s, st.out, st.ioOk); }
  }

  lemma {:induction false} RunDoneLast(s: State, steps: seq<Step>)
    requires DoneLast(s) && ValidRun(s, steps)
    ensures DoneLast(After(s, steps))
    decreases |steps|
  {
    if steps != [] {
      StepDoneLast(s, steps[0]);
      RunDoneLast(Next(s, steps[0]), steps[1..]);
    }
  }

  ghost predicate Fails(m: Down) { m == MComplete(false) || m == MAbort }

  /** A failure is on its way with no OK ahead of it. */
  ghost predicate FailureFirst(down: seq<Down>) {
    exists i :: 0 <= i < |down| && Fails(down[i]) && forall j :: 0 <= j < i ==> down[j] != MComplete(true)
  }

  lemma FailureStays(down: seq<Down>, m: Down)
    requires FailureFirst(down)
    ensures FailureFirst(down + [m])
    ensures down[0] != MComplete(true) && (!Fails(down[0]) ==> FailureFirst(down[1..]))
  {
    var i :| 0 <= i < |down| && Fails(down[i]) && forall j :: 0 <= j < i ==> down[j] != MComplete(true);
    assert Fails((down + [m])[i]) && forall j :: 0 <= j < i ==> (down + [m])[j] != MComplete(true);
    if i > 0 { assert Fails(down[1..][i - 1]) && forall j :: 0 <= j < i - 1 ==> down[1..][j] != MComplete(true); }
  }

  /** Word of a failure is ahead of any OK, or has come in. */
  ghost predicate Doomed(s: State) {
    && !(s.spc.Finished? && s.spc.ok)
    && if s.done.Some? then s.done.value != Completed(true) && s.rpc.Stopped? else FailureFirst(s.down)
  }

  lemma StepDoomed(s: State, st: Step)
    requires Doomed(s) && Enabled(s, st)
    ensures Doomed(Next(s, st))
  {
    if s.done.None? {
      if st.ReadStep? { FailureStays(s.down, s.down[0]); }
      else if st.ReceiveStep? { ReceiveDoomed(s, st.out, st.ioOk); }
    }
  }

  lemma ReceiveDoomed(s: State, out: nat -> Outcome, ioOk: bool)
    requires s.up != [] && FailureFirst(s.down)
    ensures FailureFirst(Receive(s, out, ioOk).down)
  {
    var down := Receive(s, out, ioOk).down;
    assert down == s.down + [down[|s.down|]];
    FailureStays(s.down, down[|s.down|]);
  }

  lemma {:induction false} RunDoomed(s: State, steps: seq<Step>)
    requires Doomed(s) && ValidRun(s, steps)
    ensures Doomed(After(s, steps))
    decreases |steps|
  {
    if steps != [] {
      StepDoomed(s, steps[0]);
      RunDoomed(Next(s, steps[0]), steps[1..]);
    }
  }

  /** In any run, a chunk that does not go through is answered with a failure, or
      with ABORT if its transfer is no more, and then the sender never reports OK. */
  lemma FailedChunkIsReported(s: State, partial: seq<byte>, budget: int, steps: seq<Step>, out: nat -> Outcome, ioOk: bool,
                              more: seq<Step>)
    requires Begins(s, partial, budget) && ValidRun(s, steps)
    requires var v := After(s, steps);
             && v.up != [] && v.up[0].MChunk? && ValidRun(Receive(v, out, ioOk), more)
             && (v.registered ==> Chunk(v.buf, v.file, v.up[0].off, v.up[0].data, out).status != Fine)
    ensures var v := After(s, steps);
            var v', end := Receive(v, out, ioOk), After(Receive(v, out, ioOk), more);
            && v'.down == v.down + [if v.registered then MComplete(false) else MAbort]
            && !(end.spc.Finished? && end.spc.ok)
  {
    var v := After(s, steps);
    RunDoneLast(s, steps);
    var v' := Receive(v, out, ioOk);
    assert !SaysOk(v);
    assert Fails(v'.down[|v.down|]) && forall j :: 0 <= j < |v.down| ==> v'.down[j] == v.down[j] && v'.down[j] in v.down;
    RunDoomed(v', more);
  }
}
