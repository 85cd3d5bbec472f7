/**
 * A quiet holder whose claim an INIT took, and the INIT refused after all: what
 * the holder has then depends on what it did in between, and on nothing else.
 */
module Refusal {
  import opened Prelude
  import opened Reassembly
  import opened Admission
  import opened Receivers
  import opened Custody
  import opened Ownership
  import opened Registration
  import opened Safety
  import opened Handover

  /** Receiver a has its transfer id, registered under claim c. */
  ghost predicate Owns(rs: Receivers, a: Rid, id: Id, c: Token) {
    Has(rs, a, id) && X(rs, a, id).claim == c
  }

  /** t' is t but for what is buffered ahead of the cursor. */
  ghost predicate SameBase(t: Transfer, t': Transfer) {
    t' == t.(buf := t'.buf) && t'.buf.cursor == t.buf.cursor
  }

  /** The receiver is about to give the transfer up. */
  ghost predicate Ending(pc: Pc, id: Id) {
    (pc.Discarding? || pc.Abandoning? || pc.Renamed?) && pc.id == id
  }

  /** Receiver a has the transfer and can go on with it. */
  ghost predicate Keeps(rs: Receivers, a: Rid, id: Id, c: Token) {
    Owns(rs, a, id, c) && !Ending(rs[a].pc, id)
  }

  /** Step s takes the transfer id out of receiver s.r's table. */
  ghost predicate Drops(w: World, s: Step, id: Id)
    requires Enabled(w, s)
  {
    match s
    case InitCheck(_, i, _, _, _) => i == id
    case Drop(_, i) => i == id
    case Abandon(r) => w.recv[r].pc.id == id
    case FinishDiscard(r) => w.recv[r].pc.id == id
    case _ => false
  }

  /** Step s makes receiver s.r look at the claim of its transfer id: a chunk
      at the cursor, a buffered one, DONE, a read of the hash, the rename. */
  ghost predicate ChecksClaim(w: World, s: Step, id: Id)
    requires Enabled(w, s) && !s.Tick? && Has(w.recv, s.r, id)
  {
    var b := X(w.recv, s.r, id).buf;
    match s
    case ChunkIn(_, i, off, bytes, _) => i == id && off == b.cursor && off <= b.size && |bytes| <= b.size - off
    case DrainOne(r, _) => w.recv[r].pc.id == id && b.cursor in b.pending
    case DoneIn(_, i, _) => i == id
    case HashRead(r, _, _) => w.recv[r].pc.id == id
    case Rename(r, _) => w.recv[r].pc.id == id
    case _ => false
  }

  /** Step s is the holder's own and costs a superseded transfer its future: it
      checks the claim, repeats the INIT, drops the transfer, or its onPrepare fails. */
  ghost predicate Spoils(w: World, s: Step, a: Rid, id: Id)
    requires Enabled(w, s) && Has(w.recv, a, id)
  {
    && !s.Tick? && s.r == a
    && (Drops(w, s, id) || ChecksClaim(w, s, id) || (s.Prepare? && !s.ok && w.recv[a].pc.id == id))
  }

  // ---- one step of the holder --------------------------------------------

  /** What a step of receiver a did to its superseded transfer id. */
  ghost predicate Fate(w: World, w': World, a: Rid, id: Id, dropped: bool, ending: bool)
    requires Has(w.recv, a, id)
  {
    && a in w'.recv
    && (dropped ==> id !in w'.recv[a].transfers)
    && (!dropped ==>
          && Has(w'.recv, a, id)
          && SameBase(X(w.recv, a, id), X(w'.recv, a, id))
          && (Ending(w'.recv[a].pc, id) <==> ending))
  }

  ghost predicate LostClaim(w: World, a: Rid, id: Id) {
    Has(w.recv, a, id) && !Holds(w, X(w.recv, a, id).partial, X(w.recv, a, id).claim)
  }

  lemma InitCheckFate(w: World, s: Step, id: Id)
    requires Enabled(w, s) && s.InitCheck? && LostClaim(w, s.r, id)
    ensures Fate(w, Next(w, s), s.r, id, s.id == id, false)
  {
  }

  lemma InitClaimFate(w: World, s: Step, id: Id)
    requires Enabled(w, s) && s.InitClaim? && LostClaim(w, s.r, id)
    ensures Fate(w, Next(w, s), s.r, id, false, false)
  {
  }

  /** A repeated INIT that is still under way cannot be one of a superseded transfer. */
  lemma InitFinishFate(w: World, s: Step, id: Id)
    requires Inv(w) && Enabled(w, s) && s.InitFinish? && LostClaim(w, s.r, id)
    ensures Fate(w, Next(w, s), s.r, id, false, false)
  {
    assert PcOk(w, s.r) && TransferOk(w, s.r, id);
    assert w.recv[s.r].pc.job.id != id;
  }

  lemma WriteFate(w: World, r: Rid, id: Id, b: Buf, bytes: seq<byte>, out: Outcome)
    requires LostClaim(w, r, id) && b.cursor == X(w.recv, r, id).buf.cursor
    ensures Fate(w, Write(w, r, id, b, bytes, out), r, id, false, true)
  {
  }

  lemma OwnChunkFate(w: World, r: Rid, id: Id, off: nat, bytes: seq<byte>, out: Outcome)
    requires LostClaim(w, r, id) && w.recv[r].pc.Idle?
    ensures var b := X(w.recv, r, id).buf;
            Fate(w, AfterChunk(w, r, id, off, bytes, out), r, id, false,
                 off == b.cursor && off <= b.size && |bytes| <= b.size - off)
  {
    WriteFate(w, r, id, X(w.recv, r, id).buf, bytes, out);
  }

  lemma ChunkFate(w: World, s: Step, id: Id)
    requires Enabled(w, s) && s.ChunkIn? && LostClaim(w, s.r, id)
    ensures Fate(w, Next(w, s), s.r, id, false, ChecksClaim(w, s, id))
  {
    if s.id == id { OwnChunkFate(w, s.r, id, s.off, s.bytes, s.out); }
  }

  lemma OwnDrainFate(w: World, r: Rid, id: Id, out: Outcome)
    requires LostClaim(w, r, id) && w.recv[r].pc == Draining(id)
    ensures var b := X(w.recv, r, id).buf; Fate(w, AfterDrain(w, r, out), r, id, false, b.cursor in b.pending)
  {
    var b := X(w.recv, r, id).buf;
    if b.cursor in b.pending { WriteFate(w, r, id, TakeNext(b), b.pending[b.cursor], out); }
  }

  lemma DrainFate(w: World, s: Step, id: Id)
    requires Enabled(w, s) && s.DrainOne? && LostClaim(w, s.r, id)
    ensures Fate(w, Next(w, s), s.r, id, false, ChecksClaim(w, s, id))
  {
    if w.recv[s.r].pc.id == id { OwnDrainFate(w, s.r, id, s.out); }
  }

  lemma DoneFate(w: World, s: Step, id: Id)
    requires Enabled(w, s) && (s.DoneIn? || s.HashRead?) && LostClaim(w, s.r, id)
    ensures Fate(w, Next(w, s), s.r, id, false, ChecksClaim(w, s, id))
  {
  }

  lemma RenameFate(w: World, s: Step, id: Id)
    requires Enabled(w, s) && s.Rename? && LostClaim(w, s.r, id)
    ensures Fate(w, Next(w, s), s.r, id, false, ChecksClaim(w, s, id))
  {
  }

  lemma PrepareFate(w: World, s: Step, id: Id)
    requires Enabled(w, s) && (s.Prepare? || s.Commit?) && LostClaim(w, s.r, id)
    ensures Fate(w, Next(w, s), s.r, id, false, w.recv[s.r].pc.id == id && (s.Commit? || !s.ok))
  {
  }

  lemma EndFate(w: World, s: Step, id: Id)
    requires Enabled(w, s) && (s.Abandon? || s.FinishDiscard? || s.Drop?) && LostClaim(w, s.r, id)
    ensures Fate(w, Next(w, s), s.r, id, Drops(w, s, id), false)
  {
  }

  lemma InitFate(w: World, s: Step, id: Id)
    requires Inv(w) && Enabled(w, s) && (s.InitCheck? || s.InitClaim? || s.InitFinish?) && LostClaim(w, s.r, id)
    ensures Fate(w, Next(w, s), s.r, id, Drops(w, s, id), Spoils(w, s, s.r, id))
  {
    if s.InitCheck? { InitCheckFate(w, s, id); }
    else if s.InitClaim? { InitClaimFate(w, s, id); }
    else { InitFinishFate(w, s, id); }
  }

  lemma WorkFate(w: World, s: Step, id: Id)
    requires s.ChunkIn? || s.DrainOne? || s.DoneIn? || s.HashRead? || s.Rename?
    requires Enabled(w, s) && LostClaim(w, s.r, id)
    ensures Fate(w, Next(w, s), s.r, id, false, Spoils(w, s, s.r, id))
  {
    if s.ChunkIn? { ChunkFate(w, s, id); }
    else if s.DrainOne? { DrainFate(w, s, id); }
    else if s.Rename? { RenameFate(w, s, id); }
    else { DoneFate(w, s, id); }
  }

  /** What any step of the holder does to its superseded transfer. */
  lemma HolderStep(w: World, s: Step, a: Rid, id: Id)
    requires Inv(w) && Enabled(w, s) && !s.Tick? && s.r == a && LostClaim(w, a, id)
    ensures Fate(w, Next(w, s), a, id, Drops(w, s, id),
                 Spoils(w, s, a, id) || (s.Commit? && w.recv[a].pc.id == id))
  {
    if s.InitCheck? || s.InitClaim? || s.InitFinish? { InitFate(w, s, id); }
    else if s.Prepare? || s.Commit? { PrepareFate(w, s, id); }
    else if s.Abandon? || s.FinishDiscard? || s.Drop? { EndFate(w, s, id); }
    else { WorkFate(w, s, id); }
  }

  // ---- a claim without an owner ------------------------------------------

  /** The path is claimed, but by no transfer and no INIT. */
  ghost predicate Orphan(w: World, p: Path) {
    p in w.claims && !HasOwner(w.recv, w.claims[p])
  }

  /** Owning a claim in rs' means having owned it in rs. */
  ghost predicate NoNewOwner(rs: Receivers, rs': Receivers, c: Token) {
    HasOwner(rs', c) ==> HasOwner(rs, c)
  }

  lemma OwnsIsOwner(rs: Receivers, r: Rid, id: Id, c: Token)
    requires Owns(rs, r, id, c)
    ensures HasOwner(rs, c)
  {
  }

  /** Only the acting receiver can own more than before. */
  lemma NoNewOwnerAlone(w: World, w': World, r: Rid, c: Token)
    requires Alone(w, w', r) && r in w'.recv
    requires forall id :: Owns(w'.recv, r, id, c) ==> HasOwner(w.recv, c)
    requires Claimer(w'.recv, r, c) ==> HasOwner(w.recv, c)
    ensures NoNewOwner(w.recv, w'.recv, c)
  {
    if exists q, id :: Has(w'.recv, q, id) && X(w'.recv, q, id).claim == c {
      var q, id :| Has(w'.recv, q, id) && X(w'.recv, q, id).claim == c;
      assert Owns(w'.recv, q, id, c);
      if q != r { OwnsIsOwner(w.recv, q, id, c); }
    } else if exists q :: Claimer(w'.recv, q, c) {
      var q :| Claimer(w'.recv, q, c);
      assert q != r ==> Claimer(w.recv, q, c);
    }
  }

  lemma NoneNewOwner(w: World, w': World, r: Rid, c: Token)
    requires Alone(w, w', r) && NoneNew(w, w', r)
    requires !Claimer(w'.recv, r, c) || Claimer(w.recv, r, c)
    ensures NoNewOwner(w.recv, w'.recv, c)
  {
    forall id | Owns(w'.recv, r, id, c) ensures HasOwner(w.recv, c) { OwnsIsOwner(w.recv, r, id, c); }
    NoNewOwnerAlone(w, w', r, c);
  }

  lemma InitCheckOwner(w: World, s: Step, c: Token)
    requires Enabled(w, s) && s.InitCheck?
    ensures NoNewOwner(w.recv, Next(w, s).recv, c)
  {
    NoneNewOwner(w, Next(w, s), s.r, c);
  }

  lemma InitClaimOwner(w: World, s: Step, c: Token)
    requires Enabled(w, s) && s.InitClaim? && c < w.nextToken
    ensures NoNewOwner(w.recv, Next(w, s).recv, c)
  {
    NoneNewOwner(w, Next(w, s), s.r, c);
  }

  lemma InitFinishOwner(w: World, s: Step, c: Token)
    requires Inv(w) && Enabled(w, s) && s.InitFinish?
    ensures NoNewOwner(w.recv, Next(w, s).recv, c)
  {
    var w', pc := Next(w, s), w.recv[s.r].pc;
    assert PcOk(w, s.r);
    forall id | Owns(w'.recv, s.r, id, c) ensures HasOwner(w.recv, c) {
      if id != pc.job.id || pc.prior { OwnsIsOwner(w.recv, s.r, id, c); }
      else { assert Claimer(w.recv, s.r, pc.token); }
    }
    assert Claimer(w'.recv, s.r, c) ==> Claimer(w.recv, s.r, c);
    NoNewOwnerAlone(w, w', s.r, c);
  }

  lemma ChunkOwner(w: World, w': World, r: Rid, c: Token)
    requires r in w.recv && r in w'.recv && Alone(w, w', r) && SameClaims(w.recv[r], w'.recv[r])
    requires !w'.recv[r].pc.Claimed?
    ensures NoNewOwner(w.recv, w'.recv, c)
  {
    forall id | Owns(w'.recv, r, id, c) ensures HasOwner(w.recv, c) { OwnsIsOwner(w.recv, r, id, c); }
    NoNewOwnerAlone(w, w', r, c);
  }

  lemma EndOwner(w: World, s: Step, c: Token)
    requires Enabled(w, s) && (s.DoneIn? || s.HashRead? || s.Prepare? || s.Rename? || s.Commit?
                               || s.Abandon? || s.FinishDiscard? || s.Drop?)
    ensures NoNewOwner(w.recv, Next(w, s).recv, c)
  {
    NoneNewOwner(w, Next(w, s), s.r, c);
  }

  lemma StepOwner(w: World, s: Step, c: Token)
    requires Inv(w) && Enabled(w, s) && !s.Tick? && c < w.nextToken
    ensures NoNewOwner(w.recv, Next(w, s).recv, c)
  {
    if s.InitCheck? { InitCheckOwner(w, s, c); }
    else if s.InitClaim? { InitClaimOwner(w, s, c); }
    else if s.InitFinish? { InitFinishOwner(w, s, c); }
    else if s.ChunkIn? || s.DrainOne? { ChunkOwner(w, Next(w, s), s.r, c); }
    else { EndOwner(w, s, c); }
  }

  /** A claim nobody owns is never owned again. */
  lemma NeverOwnedAgain(w: World, s: Step, c: Token)
    requires Inv(w) && Enabled(w, s) && c < w.nextToken && !HasOwner(w.recv, c)
    ensures !HasOwner(Next(w, s).recv, c) && c < Next(w, s).nextToken
  {
    if !s.Tick? { StepOwner(w, s, c); }
  }

  /** A transfer taken out of its table leaves its claim without an owner. */
  lemma DroppedHasNoOwner(w: World, s: Step, a: Rid, id: Id)
    requires Inv(w) && Enabled(w, s) && !s.Tick? && s.r == a && LostClaim(w, a, id) && Drops(w, s, id)
    ensures !HasOwner(Next(w, s).recv, X(w.recv, a, id).claim)
  {
    var w', c := Next(w, s), X(w.recv, a, id).claim;
    HolderStep(w, s, a, id);
    assert NoneNew(w, w', a) && !w'.recv[a].pc.Claimed?;
    forall r, i | Has(w'.recv, r, i) ensures X(w'.recv, r, i).claim != c {
      assert Has(w.recv, r, i) && X(w'.recv, r, i) == X(w.recv, r, i);
    }
    forall r ensures !Claimer(w'.recv, r, c) {
      if Claimer(w'.recv, r, c) { assert Claimer(w.recv, r, c); }
    }
  }

  // ---- the run between claim and refusal ---------------------------------

  /** Any steps of any receivers while the INIT of b is under way with its
      claim `tok` live; b itself is busy with that INIT. */
  ghost predicate Between(w: World, mid: seq<Step>, b: Rid, tok: Token)
    decreases |mid|
  {
    Live(w, tok) &&
    (mid == [] ||
     (Enabled(w, mid[0]) && (mid[0].Tick? || mid[0].r != b) && Between(Next(w, mid[0]), mid[1..], b, tok)))
  }

  lemma {:induction false} BetweenRuns(w: World, mid: seq<Step>, b: Rid, tok: Token)
    requires Between(w, mid, b, tok)
    ensures ValidRun(w, mid) && Live(After(w, mid), tok)
    decreases |mid|
  {
    if mid != [] { BetweenRuns(Next(w, mid[0]), mid[1..], b, tok); }
  }

  /** Some step of a in the run spoils its transfer id. */
  ghost predicate Spoiled(w: World, mid: seq<Step>, a: Rid, id: Id)
    requires ValidRun(w, mid)
    decreases |mid|
  {
    mid != [] && ((Has(w.recv, a, id) && Spoils(w, mid[0], a, id)) || Spoiled(Next(w, mid[0]), mid[1..], a, id))
  }

  /** Some step of a in the run takes its transfer id out of its table. */
  ghost predicate DroppedIn(w: World, mid: seq<Step>, a: Rid, id: Id)
    requires ValidRun(w, mid)
    decreases |mid|
  {
    mid != [] && ((!mid[0].Tick? && mid[0].r == a && Drops(w, mid[0], id)) || DroppedIn(Next(w, mid[0]), mid[1..], a, id))
  }

  /** b's INIT took the path of a's transfer over from it, and holds it now. */
  ghost predicate Taken(w: World, a: Rid, id: Id, b: Rid, t: Transfer) {
    && b in w.recv && b != a && Suspends(w, b, t.claim)
    && w.recv[b].pc.job.partial == t.partial && w.recv[b].pc.token != t.claim
    && t.claim < w.nextToken
  }

  lemma SuspendsTakes(w: World, a: Rid, id: Id, b: Rid)
    requires Inv(w) && Has(w.recv, a, id) && Suspends(w, b, X(w.recv, a, id).claim)
    ensures Taken(w, a, id, b, X(w.recv, a, id))
  {
    assert TransferOk(w, a, id) && PcOk(w, b);
  }

  /** Until b finishes, nobody else takes the path or touches the file. */
  lemma TakenStep(w: World, s: Step, a: Rid, id: Id, b: Rid, t: Transfer)
    requires Inv(w) && Taken(w, a, id, b, t) && Enabled(w, s) && (s.Tick? || s.r != b)
    requires Live(Next(w, s), w.recv[b].pc.token)
    ensures Taken(Next(w, s), a, id, b, t) && SameFile(w, Next(w, s), t.partial)
    ensures Next(w, s).recv[b] == w.recv[b]
  {
    var p := t.partial;
    assert PcOk(w, b) && Claimer(w.recv, b, w.claims[p]) && ClaimIsOf(w, b, p);
    if !s.Tick? {
      if ClaimIsOf(w, s.r, p) { ClaimHasOneReceiver(w, b, s.r, p); }
      if Touches(w, s, p) { TouchNeedsClaim(w, s, p); }
      StepTouches(w, s, p);
    }
    StepClaims(w, s, p);
  }

  lemma OwnedIsSuperseded(w: World, a: Rid, id: Id, b: Rid, t: Transfer)
    requires Inv(w) && Taken(w, a, id, b, t) && Owns(w.recv, a, id, t.claim)
    ensures LostClaim(w, a, id) && X(w.recv, a, id).partial == t.partial
  {
    assert TransferOk(w, a, id) && PcOk(w, b);
  }

  /** A transfer lost for good: gone, or on its way out. */
  ghost predicate Lost(rs: Receivers, a: Rid, id: Id, c: Token) {
    !HasOwner(rs, c) || (Owns(rs, a, id, c) && Ending(rs[a].pc, id))
  }

  lemma LostIsNotKept(rs: Receivers, a: Rid, id: Id, c: Token)
    requires Lost(rs, a, id, c)
    ensures !Keeps(rs, a, id, c)
  {
    if Owns(rs, a, id, c) { OwnsIsOwner(rs, a, id, c); }
  }

  /** What a step makes of a transfer that receiver a had under claim c. */
  ghost predicate Turn(w: World, s: Step, rs: Receivers, a: Rid, id: Id, c: Token)
    requires Enabled(w, s) && Has(w.recv, a, id)
  {
    && (if !s.Tick? && s.r == a && Drops(w, s, id) then !HasOwner(rs, c)
        else Owns(rs, a, id, c) && SameBase(X(w.recv, a, id), X(rs, a, id))
             && (Ending(w.recv[a].pc, id) ==> Ending(rs[a].pc, id)))
    && (!Ending(w.recv[a].pc, id) ==>
          if Spoils(w, s, a, id) then Lost(rs, a, id, c) else Keeps(rs, a, id, c))
  }

  lemma EndingStep(w: World, s: Step, a: Rid, id: Id)
    requires Enabled(w, s) && !s.Tick? && s.r == a && Has(w.recv, a, id) && Ending(w.recv[a].pc, id)
    ensures s.Commit? || Drops(w, s, id)
  {
  }

  lemma HolderTurn(w: World, s: Step, a: Rid, id: Id)
    requires Inv(w) && Enabled(w, s) && !s.Tick? && s.r == a && LostClaim(w, a, id)
    ensures Turn(w, s, Next(w, s).recv, a, id, X(w.recv, a, id).claim)
  {
    HolderStep(w, s, a, id);
    if Drops(w, s, id) { DroppedHasNoOwner(w, s, a, id); }
    else if Ending(w.recv[a].pc, id) { EndingStep(w, s, a, id); }
  }

  lemma OthersTurn(w: World, s: Step, a: Rid, id: Id)
    requires Enabled(w, s) && (s.Tick? || s.r != a) && Has(w.recv, a, id)
    ensures Turn(w, s, Next(w, s).recv, a, id, X(w.recv, a, id).claim)
  {
    assert Next(w, s).recv[a] == w.recv[a];
  }

  /** One step of anyone but b: a's transfer is kept exactly if the step does
      not spoil it, and registered exactly if the step does not drop it. */
  lemma OneStep(w: World, s: Step, a: Rid, id: Id, b: Rid, t: Transfer)
    requires Inv(w) && Taken(w, a, id, b, t) && Enabled(w, s) && (s.Tick? || s.r != b)
    requires Owns(w.recv, a, id, t.claim)
    ensures Turn(w, s, Next(w, s).recv, a, id, t.claim)
  {
    OwnedIsSuperseded(w, a, id, b, t);
    if !s.Tick? && s.r == a { HolderTurn(w, s, a, id); } else { OthersTurn(w, s, a, id); }
  }

  lemma LostStep(w: World, s: Step, a: Rid, id: Id, b: Rid, t: Transfer)
    requires Inv(w) && Taken(w, a, id, b, t) && Enabled(w, s) && (s.Tick? || s.r != b)
    requires Lost(w.recv, a, id, t.claim)
    ensures Lost(Next(w, s).recv, a, id, t.claim)
  {
    if HasOwner(w.recv, t.claim) { OneStep(w, s, a, id, b, t); }
    else { NeverOwnedAgain(w, s, t.claim); }
  }

  // ---- whole runs --------------------------------------------------------

  /** Invariants of the run: b's INIT still holds the path, the file is untouched. */
  lemma {:induction false} TakenRun(w: World, mid: seq<Step>, a: Rid, id: Id, b: Rid, t: Transfer)
    requires Inv(w) && Taken(w, a, id, b, t) && Between(w, mid, b, w.recv[b].pc.token)
    ensures ValidRun(w, mid)
    ensures var v := After(w, mid); Inv(v) && Taken(v, a, id, b, t) && v.recv[b] == w.recv[b] && SameFile(w, v, t.partial)
    decreases |mid|
  {
    if mid != [] {
      assert Live(Next(w, mid[0]), w.recv[b].pc.token);
      TakenStep(w, mid[0], a, id, b, t);
      StepInv(w, mid[0]);
      TakenRun(Next(w, mid[0]), mid[1..], a, id, b, t);
    }
  }

  lemma {:induction false} LostRun(w: World, mid: seq<Step>, a: Rid, id: Id, b: Rid, t: Transfer)
    requires Inv(w) && Taken(w, a, id, b, t) && Between(w, mid, b, w.recv[b].pc.token) && ValidRun(w, mid)
    requires Lost(w.recv, a, id, t.claim)
    ensures Lost(After(w, mid).recv, a, id, t.claim)
    decreases |mid|
  {
    if mid != [] {
      LostStep(w, mid[0], a, id, b, t);
      TakenStep(w, mid[0], a, id, b, t);
      StepInv(w, mid[0]);
      LostRun(Next(w, mid[0]), mid[1..], a, id, b, t);
    }
  }

  lemma {:induction false} GoneRun(w: World, mid: seq<Step>, c: Token)
    requires Inv(w) && ValidRun(w, mid) && c < w.nextToken && !HasOwner(w.recv, c)
    ensures !HasOwner(After(w, mid).recv, c)
    decreases |mid|
  {
    if mid != [] {
      NeverOwnedAgain(w, mid[0], c);
      StepInv(w, mid[0]);
      GoneRun(Next(w, mid[0]), mid[1..], c);
    }
  }

  lemma {:induction false} KeptRun(w: World, mid: seq<Step>, a: Rid, id: Id, b: Rid, t: Transfer)
    requires Inv(w) && Taken(w, a, id, b, t) && Between(w, mid, b, w.recv[b].pc.token) && ValidRun(w, mid)
    requires Keeps(w.recv, a, id, t.claim)
    ensures Keeps(After(w, mid).recv, a, id, t.claim) <==> !Spoiled(w, mid, a, id)
    decreases |mid|
  {
    if mid != [] {
      OneStep(w, mid[0], a, id, b, t);
      TakenStep(w, mid[0], a, id, b, t);
      StepInv(w, mid[0]);
      if Spoils(w, mid[0], a, id) {
        LostRun(Next(w, mid[0]), mid[1..], a, id, b, t);
        LostIsNotKept(After(w, mid).recv, a, id, t.claim);
      } else {
        KeptRun(Next(w, mid[0]), mid[1..], a, id, b, t);
      }
    }
  }

  lemma {:induction false} OwnedRun(w: World, mid: seq<Step>, a: Rid, id: Id, b: Rid, t: Transfer)
    requires Inv(w) && Taken(w, a, id, b, t) && Between(w, mid, b, w.recv[b].pc.token) && ValidRun(w, mid)
    requires Owns(w.recv, a, id, t.claim)
    ensures var rs := After(w, mid).recv;
            if DroppedIn(w, mid, a, id) then !HasOwner(rs, t.claim)
            else Owns(rs, a, id, t.claim) && SameBase(X(w.recv, a, id), X(rs, a, id))
    decreases |mid|
  {
    if mid != [] {
      OneStep(w, mid[0], a, id, b, t);
      TakenStep(w, mid[0], a, id, b, t);
      StepInv(w, mid[0]);
      if !mid[0].Tick? && mid[0].r == a && Drops(w, mid[0], id) {
        GoneRun(Next(w, mid[0]), mid[1..], t.claim);
      } else {
        OwnedRun(Next(w, mid[0]), mid[1..], a, id, b, t);
      }
    }
  }

  /** The refusal itself: the path goes back to the claim it was taken from. */
  lemma HandedBack(w: World, a: Rid, id: Id, b: Rid, t: Transfer, statOk: bool, truncOk: bool)
    requires Inv(w) && Taken(w, a, id, b, t) && t.partial.Shared?
    ensures Enabled(w, InitFinish(b, false, statOk, truncOk))
    ensures var v := Next(w, InitFinish(b, false, statOk, truncOk));
            && Holds(v, t.partial, t.claim) && SameFile(w, v, t.partial)
            && (a in w.recv ==> a in v.recv && v.recv[a] == w.recv[a])
            && (HasOwner(v.recv, t.claim) <==> HasOwner(w.recv, t.claim))
  {
    var v := Next(w, InitFinish(b, false, statOk, truncOk));
    NoneNewOwner(w, v, b, t.claim);
    if HasOwner(w.recv, t.claim) { OwnerStays(w.recv, v.recv, t.claim); }
  }

  lemma AfterRefusal(w: World, v: World, mid: seq<Step>, a: Rid, id: Id, b: Rid, t: Transfer)
    requires Inv(w) && Taken(w, a, id, b, t) && Between(w, mid, b, w.recv[b].pc.token) && ValidRun(w, mid)
    requires Has(w.recv, a, id) && X(w.recv, a, id) == t && Holds(v, t.partial, t.claim)
    requires a in v.recv && a in After(w, mid).recv && v.recv[a] == After(w, mid).recv[a]
    requires HasOwner(v.recv, t.claim) <==> HasOwner(After(w, mid).recv, t.claim)
    ensures Orphan(v, t.partial) <==> DroppedIn(w, mid, a, id)
    ensures !DroppedIn(w, mid, a, id) ==> Owns(v.recv, a, id, t.claim) && SameBase(t, X(v.recv, a, id))
    ensures !Ending(w.recv[a].pc, id) ==> (Keeps(v.recv, a, id, t.claim) <==> !Spoiled(w, mid, a, id))
  {
    OwnedRun(w, mid, a, id, b, t);
    if !DroppedIn(w, mid, a, id) { OwnsIsOwner(After(w, mid).recv, a, id, t.claim); }
    if !Ending(w.recv[a].pc, id) { KeptRun(w, mid, a, id, b, t); }
  }

  /** Whatever happens between an INIT's claim and its refusal, the path goes
      back to the holder's claim and the file is as it was. The holder still has
      its transfer, and can go on, exactly if none of its own steps in between
      checked the claim, repeated the INIT, dropped the transfer or failed to
      prepare; and the claim handed back has no owner exactly if one of them
      took the transfer out of its table. */
  lemma RefusalOutcome(w: World, mid: seq<Step>, a: Rid, id: Id, b: Rid, statOk: bool, truncOk: bool)
    requires Inv(w) && Has(w.recv, a, id) && Suspends(w, b, X(w.recv, a, id).claim)
    requires Between(w, mid, b, w.recv[b].pc.token)
    ensures ValidRun(w, mid) && Enabled(After(w, mid), InitFinish(b, false, statOk, truncOk))
    ensures var v, t := Next(After(w, mid), InitFinish(b, false, statOk, truncOk)), X(w.recv, a, id);
            && Holds(v, t.partial, t.claim) && SameFile(w, v, t.partial)
            && (!DroppedIn(w, mid, a, id) ==> Owns(v.recv, a, id, t.claim) && SameBase(t, X(v.recv, a, id)))
            && (!Ending(w.recv[a].pc, id) ==> (Keeps(v.recv, a, id, t.claim) <==> !Spoiled(w, mid, a, id)))
            && (Orphan(v, t.partial) <==> DroppedIn(w, mid, a, id))
  {
    var t := X(w.recv, a, id);
    SuspendsTakes(w, a, id, b);
    TakenRun(w, mid, a, id, b, t);
    var u := After(w, mid);
    assert PcOk(w, b) && t.partial.Shared?;
    HandedBack(u, a, id, b, t, statOk, truncOk);
    ReceiversStay(w, mid);
    AfterRefusal(w, Next(u, InitFinish(b, false, statOk, truncOk)), mid, a, id, b, t);
  }

  // ---- an INIT refused in one go ------------------------------------------

  /** The steps by which receiver r handles one INIT, with nobody in between,
      up to its refusal. */
  ghost predicate OneInit(ss: seq<Step>, r: Rid) {
    && 1 <= |ss| <= 3 && ss[0].InitCheck? && ss[0].r == r
    && (|ss| > 1 ==> Onward(ss[1], r)) && (|ss| > 2 ==> Onward(ss[2], r))
  }

  ghost predicate Onward(s: Step, r: Rid) {
    (s.InitClaim? || (s.InitFinish? && !s.openOk)) && s.r == r
  }

  /** Receiver r is back where it was: no claim, no file and no other receiver
      changed, and nothing was registered. */
  ghost predicate Undone(w: World, v: World, r: Rid) {
    && v.claims == w.claims && SameDisk(w, v) && v.recv.Keys == w.recv.Keys
    && (forall q :: q in w.recv && q != r ==> v.recv[q] == w.recv[q]) && NoneNew(w, v, r)
  }

  lemma UndoneThen(w: World, w1: World, w2: World, r: Rid)
    requires Undone(w, w1, r) && Undone(w1, w2, r)
    ensures Undone(w, w2, r)
  {
  }

  /** The checks of an INIT undo nothing, whatever they decide. */
  lemma CheckUndone(w: World, s: Step)
    requires Enabled(w, s) && s.InitCheck?
    ensures Undone(w, Next(w, s), s.r)
  {
  }

  /** The rest of an INIT's handling, from its checks to its refusal. */
  lemma ClaimUndone(w: World, s: Step)
    requires Enabled(w, s) && s.InitClaim? && Next(w, s).recv[s.r].pc.Idle?
    ensures Undone(w, Next(w, s), s.r)
  {
    RefusedAtChecks(w, s);
  }

  lemma RepeatUndone(w: World, s: Step)
    requires s.InitFinish? && !s.openOk && Enabled(w, s) && w.recv[s.r].pc.prior
    ensures Undone(w, Next(w, s), s.r)
  {
  }

  lemma ClaimFinishUndone(w: World, s: Step, s': Step)
    requires Inv(w) && Enabled(w, s) && s.InitClaim? && Enabled(Next(w, s), s') && Onward(s', s.r) && s'.InitFinish?
    ensures Undone(w, Next(Next(w, s), s'), s.r)
  {
    RefusedAtOnce(w, s.r, s.lim, s'.statOk, s'.truncOk);
  }

  lemma CheckedOrRepeat(w: World, s: Step)
    requires Enabled(w, s) && s.InitCheck?
    ensures Next(w, s).recv[s.r].pc.Claimed? ==> Next(w, s).recv[s.r].pc.prior
  {
  }

  /** Of two such steps the first is the claim and the second the refused open. */
  lemma ClaimThenFinish(w: World, s: Step, s': Step)
    requires (s.InitClaim? || s.InitFinish?) && Onward(s, s.r) && Enabled(w, s) && Enabled(Next(w, s), s') && Onward(s', s.r)
    requires w.recv[s.r].pc.Claimed? ==> w.recv[s.r].pc.prior
    ensures s.InitClaim? && s'.InitFinish?
  {
  }

  /** After the checks, one more step: a claim that was refused a private file, or a repeated INIT's failed open. */
  lemma RefusedSecond(w: World, s: Step, r: Rid)
    requires Onward(s, r) && Enabled(w, s) && Next(w, s).recv[r].pc.Idle?
    requires w.recv[r].pc.Claimed? ==> w.recv[r].pc.prior
    ensures Undone(w, Next(w, s), r)
  {
    if s.InitClaim? { ClaimUndone(w, s); } else { RepeatUndone(w, s); }
  }

  lemma RefusedThird(w: World, s: Step, s': Step, r: Rid)
    requires Inv(w) && Onward(s, r) && Enabled(w, s) && Onward(s', r) && Enabled(Next(w, s), s')
    requires w.recv[r].pc.Claimed? ==> w.recv[r].pc.prior
    ensures Undone(w, Next(Next(w, s), s'), r)
  {
    ClaimThenFinish(w, s, s');
    ClaimFinishUndone(w, s, s');
  }

  lemma {:induction false} RunOfSteps(w: World, ss: seq<Step>)
    requires 1 <= |ss| <= 3 && ValidRun(w, ss)
    ensures Enabled(w, ss[0])
    ensures |ss| == 1 ==> After(w, ss) == Next(w, ss[0])
    ensures |ss| > 1 ==> Enabled(Next(w, ss[0]), ss[1])
    ensures |ss| == 2 ==> After(w, ss) == Next(Next(w, ss[0]), ss[1])
    ensures |ss| == 3 ==> Enabled(Next(Next(w, ss[0]), ss[1]), ss[2])
                          && After(w, ss) == Next(Next(Next(w, ss[0]), ss[1]), ss[2])
    decreases |ss|
  {
    if |ss| > 1 { RunOfSteps(Next(w, ss[0]), ss[1..]); }
  }

  /** An INIT handled in one go and refused, wherever that happens (capacity,
      quota, disk space, the second admission of a private file, the open), a
      repeated INIT included: every claim, every file and every other receiver
      is as it was, and nothing was registered. */
  lemma RefusedInit(w: World, ss: seq<Step>, r: Rid)
    requires Inv(w) && OneInit(ss, r) && ValidRun(w, ss)
    requires r in After(w, ss).recv && After(w, ss).recv[r].pc.Idle?
    ensures Undone(w, After(w, ss), r)
  {
    RunOfSteps(w, ss);
    var w1 := Next(w, ss[0]);
    CheckUndone(w, ss[0]);
    CheckedOrRepeat(w, ss[0]);
    StepInv(w, ss[0]);
    if |ss| == 2 {
      RefusedSecond(w1, ss[1], r);
      UndoneThen(w, w1, After(w, ss), r);
    } else if |ss| == 3 {
      RefusedThird(w1, ss[1], ss[2], r);
      UndoneThen(w, w1, After(w, ss), r);
    }
  }
}
