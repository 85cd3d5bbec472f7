/**
 * Many stream receivers over one disk and one claim table (`activePartials`).
 *
 * Each receiver handles one frame at a time, as its connection loop does; a
 * handler is cut into steps wherever it lets go of every lock for long enough
 * for another receiver to act. A step that begins with `stillHolds` performs
 * the action the check guards, and registering a freshly claimed file happens
 * while that claim is live: both are the code's own assumption that a holder
 * acts within `staleClaimAfter` of refreshing its claim.
 *
 * A directory entry names an inode and an open handle is an inode, so a
 * transfer can keep a handle to a file that has meanwhile been renamed.
 */
module Receivers {
  import opened Prelude
  import opened Reassembly
  import opened Admission

  type Rid = int
  type Id = int
  type Token = int
  type Inode = int
  type Digest = seq<byte>

  /** `staleClaimAfter`, in seconds. */
  const STALE_AFTER: nat := 120
  const MAX_TRANSFERS: nat := 64

  /** The content-addressed .partial of a transfer id, a private one beside it,
      or a final name in the received directory. */
  datatype Path = Shared(id: Id) | Private(id: Id, n: int) | Final(n: int)

  datatype Transfer = Transfer(file: Inode, partial: Path, claim: Token, hash: Digest, buf: Buf)

  /** An INIT that passed its checks. */
  datatype Job = Job(id: Id, size: nat, hash: Digest, partial: Path, budget: int)

  /** Where a receiver is inside the frame it is handling. */
  datatype Pc =
    | Idle
    | Checked(job: Job)
    | Claimed(job: Job, token: Token, prev: Option<Token>, prior: bool)
    | Draining(id: Id)
    | Verifying(id: Id, hashed: seq<byte>)
    | Verified(id: Id, hashed: seq<byte>)
    | Prepared(id: Id, hashed: seq<byte>)
    | Renamed(id: Id, final: Path)
    | Abandoning(id: Id)
    | Discarding(id: Id)

  datatype Receiver = Receiver(transfers: map<Id, Transfer>, pc: Pc)

  datatype Saved = Saved(bytes: seq<byte>, hash: Digest, id: Id)

  /**
   * `claims` is activePartials.paths, `last` the lastWrite of every claim ever
   * made and `home` the path it was made on. `saved` records what each rename
   * into place installed. Private and final names are numbered as they are made.
   */
  datatype World = World(
    sha: seq<byte> -> Digest,
    now: nat,
    claims: map<Path, Token>,
    last: map<Token, nat>,
    home: map<Token, Path>,
    dir: map<Path, Inode>,
    data: map<Inode, seq<byte>>,
    recv: Receivers,
    saved: map<Path, Saved>,
    nextToken: Token,
    nextInode: Inode,
    nextName: int)

  datatype Limits = Limits(quota: nat, used: nat, free: Option<nat>)

  datatype Step =
    | Tick(d: nat)
    | InitCheck(r: Rid, id: Id, size: nat, hash: Digest, lim: Limits)
    | InitClaim(r: Rid, lim: Limits)
    | InitFinish(r: Rid, openOk: bool, statOk: bool, truncOk: bool)
    | ChunkIn(r: Rid, id: Id, off: nat, bytes: seq<byte>, out: Outcome)
    | DrainOne(r: Rid, out: Outcome)
    | DoneIn(r: Rid, id: Id, syncOk: bool)
    | HashRead(r: Rid, n: nat, readOk: bool)
    | Prepare(r: Rid, ok: bool)
    | Rename(r: Rid, ok: bool)
    | Commit(r: Rid, ok: bool, removeOk: bool)
    | Abandon(r: Rid)
    | FinishDiscard(r: Rid)
    | Drop(r: Rid, id: Id)

  // ---- access ------------------------------------------------------------

  type Receivers = map<Rid, Receiver>

  ghost predicate Has(rs: Receivers, r: Rid, id: Id) {
    r in rs && id in rs[r].transfers
  }

  ghost function X(rs: Receivers, r: Rid, id: Id): Transfer
    requires Has(rs, r, id)
  {
    rs[r].transfers[id]
  }

  ghost function SetX(w: World, r: Rid, id: Id, t: Transfer, pc: Pc): (w': World)
    requires r in w.recv
    ensures Alone(w, w', r) && SameDisk(w, w') && w'.claims == w.claims
    ensures w'.recv[r] == Receiver(w.recv[r].transfers[id := t], pc)
  {
    w.(recv := w.recv[r := Receiver(w.recv[r].transfers[id := t], pc)])
  }

  ghost function DropX(w: World, r: Rid, id: Id, pc: Pc): World
    requires r in w.recv
  {
    w.(recv := w.recv[r := Receiver(w.recv[r].transfers - {id}, pc)])
  }

  ghost function SetPc(w: World, r: Rid, pc: Pc): (w': World)
    requires r in w.recv
    ensures Alone(w, w', r) && SameDisk(w, w') && w'.claims == w.claims && w'.recv[r] == w.recv[r].(pc := pc)
  {
    w.(recv := w.recv[r := w.recv[r].(pc := pc)])
  }

  /** SetPc after a successful stillHolds. */
  ghost function RefreshPc(w: World, tok: Token, r: Rid, pc: Pc): (w': World)
    requires r in w.recv
    ensures Alone(w, w', r) && SameDisk(w, w') && w'.claims == w.claims && w'.recv[r] == w.recv[r].(pc := pc)
  {
    w.(last := w.last[tok := w.now], recv := w.recv[r := w.recv[r].(pc := pc)])
  }

  /** Only receiver r acted: time stands still and the others are as they were. */
  ghost predicate Alone(w: World, w': World, r: Rid) {
    && w'.sha == w.sha && w'.now == w.now && w.nextName <= w'.nextName && w.nextToken <= w'.nextToken
    && w'.recv.Keys == w.recv.Keys && forall q :: q in w.recv && q != r ==> w'.recv[q] == w.recv[q]
  }

  /** Receiver r registered nothing and changed no transfer, though it may have dropped some. */
  ghost predicate NoneNew(w: World, w': World, r: Rid) {
    && r in w.recv && r in w'.recv
    && forall id :: id in w'.recv[r].transfers ==>
         id in w.recv[r].transfers && w'.recv[r].transfers[id] == w.recv[r].transfers[id]
  }

  /** Every transfer but id is as it was. */
  ghost predicate OthersKept(rc: Receiver, rc': Receiver, id: Id) {
    forall i :: i != id ==> (i in rc.transfers <==> i in rc'.transfers)
                            && (i in rc.transfers ==> rc'.transfers[i] == rc.transfers[i])
  }

  /** The same transfers under the same claims. */
  ghost predicate SameClaims(rc: Receiver, rc': Receiver) {
    && rc'.transfers.Keys == rc.transfers.Keys
    && forall i :: i in rc.transfers ==> rc'.transfers[i].claim == rc.transfers[i].claim
  }

  /** Where handling a chunk of transfer id can lead. */
  ghost predicate Working(pc: Pc, id: Id) {
    pc.Idle? || ((pc.Draining? || pc.Abandoning? || pc.Discarding?) && pc.id == id)
  }

  /** The job of an INIT that declared these. */
  ghost predicate JobIs(j: Job, id: Id, size: nat, hash: Digest) { j.id == id && j.size == size && j.hash == hash }

  ghost predicate SameJob(j: Job, job: Job) { JobIs(j, job.id, job.size, job.hash) }

  ghost predicate OfInit(pc: Pc) { pc.Checked? || pc.Claimed? }

  ghost predicate SameDisk(w: World, w': World) {
    w'.dir == w.dir && w'.data == w.data && w'.saved == w.saved
  }

  // ---- the claim table ---------------------------------------------------

  ghost predicate Holds(w: World, p: Path, tok: Token) {
    p in w.claims && w.claims[p] == tok
  }

  ghost predicate Live(w: World, tok: Token) {
    tok in w.last && w.now - w.last[tok] < STALE_AFTER
  }

  /** partialHeld */
  ghost predicate HeldLive(w: World, p: Path) {
    p in w.claims && Live(w, w.claims[p])
  }

  /** What a successful stillHolds leaves behind. */
  ghost function Refresh(w: World, tok: Token): World {
    w.(last := w.last[tok := w.now])
  }

  /** claimPartial on a path no live transfer holds. */
  ghost function Claim(w: World, p: Path): World {
    w.(claims := w.claims[p := w.nextToken], last := w.last[w.nextToken := w.now],
       home := w.home[w.nextToken := p], nextToken := w.nextToken + 1)
  }

  /** unclaimPartial */
  ghost function Unclaimed(claims: map<Path, Token>, p: Path, tok: Token, prev: Option<Token>): map<Path, Token> {
    if p !in claims || claims[p] != tok then claims
    else if prev.Some? then claims[p := prev.value]
    else claims - {p}
  }

  /** A private file goes when its only possible user does. */
  ghost function Removed(dir: map<Path, Inode>, p: Path): map<Path, Inode> {
    if p.Private? then dir - {p} else dir
  }

  /** The claim of transfer t is out of the table, if it was in it, and no other is. */
  ghost predicate Released(w: World, w': World, t: Transfer) {
    w'.claims == if Holds(w, t.partial, t.claim) then w.claims - {t.partial} else w.claims
  }

  /** Drops the transfer and releases its claim. */
  ghost function Discard(w: World, r: Rid, id: Id): (w': World)
    requires Has(w.recv, r, id)
    ensures Alone(w, w', r) && w'.saved == w.saved && w'.data == w.data
    ensures NoneNew(w, w', r) && w'.recv[r].pc.Idle?
    ensures w'.recv[r].transfers == w.recv[r].transfers - {id} && Released(w, w', X(w.recv, r, id))
  {
    var t := X(w.recv, r, id);
    w.(recv := w.recv[r := Receiver(w.recv[r].transfers - {id}, Idle)],
       claims := Unclaimed(w.claims, t.partial, t.claim, None),
       dir := Removed(w.dir, t.partial))
  }

  // ---- INIT --------------------------------------------------------------

  ghost function StatOf(w: World, p: Path): Option<nat> {
    if p in w.dir && w.dir[p] in w.data then Some(|w.data[w.dir[p]]|) else None
  }

  ghost function AdmitInto(w: World, p: Path, size: nat, lim: Limits): Verdict {
    Admit(lim.quota, lim.used, lim.free, StatOf(w, p), size)
  }

  ghost function TakeName(w: World): World { w.(nextName := w.nextName + 1) }

  /** An INIT for an id this receiver does not hold: capacity, then the shared
      .partial or, when a live transfer holds that, a private one. */
  ghost function AfterFreshInit(w: World, r: Rid, id: Id, size: nat, hash: Digest, lim: Limits): (w': World)
    requires r in w.recv
    ensures Alone(w, w', r) && SameDisk(w, w') && w'.claims == w.claims
    ensures NoneNew(w, w', r) && w'.recv[r].transfers == w.recv[r].transfers
    ensures w'.recv[r].pc == w.recv[r].pc || (w'.recv[r].pc.Checked? && JobIs(w'.recv[r].pc.job, id, size, hash))
  {
    if |w.recv[r].transfers| >= MAX_TRANSFERS then w
    else if HeldLive(w, Shared(id)) then
      AfterAdmit(TakeName(w), r, id, size, hash, Private(id, w.nextName), lim)
    else
      AfterAdmit(w, r, id, size, hash, Shared(id), lim)
  }

  ghost function AfterAdmit(w: World, r: Rid, id: Id, size: nat, hash: Digest, p: Path, lim: Limits): (w': World)
    requires r in w.recv
    ensures Alone(w, w', r) && SameDisk(w, w') && w'.claims == w.claims
    ensures NoneNew(w, w', r) && w'.recv[r].transfers == w.recv[r].transfers
    ensures w'.recv[r].pc == w.recv[r].pc || (w'.recv[r].pc.Checked? && JobIs(w'.recv[r].pc.job, id, size, hash))
  {
    var v := AdmitInto(w, p, size, lim);
    if v.Admitted? then SetPc(w, r, Checked(Job(id, size, hash, p, v.budget))) else w
  }

  /** A repeated INIT for a transfer that still holds its .partial. */
  ghost function AfterRepeatInit(w: World, r: Rid, id: Id, size: nat, hash: Digest, lim: Limits): (w': World)
    requires Has(w.recv, r, id)
    ensures Alone(w, w', r) && SameDisk(w, w') && w'.claims == w.claims
    ensures NoneNew(w, w', r) && w'.recv[r].transfers == w.recv[r].transfers
    ensures w'.recv[r].pc == w.recv[r].pc
         || (w'.recv[r].pc.Claimed? && w'.recv[r].pc.prior && JobIs(w'.recv[r].pc.job, id, size, hash))
  {
    var t := X(w.recv, r, id);
    var w1 := Refresh(w, t.claim);
    match AdmitInto(w1, t.partial, size, lim)
    case Admitted(b) => SetPc(w1, r, Claimed(Job(id, size, hash, t.partial, b), t.claim, None, true))
    case _ => w1
  }

  /** handleInit up to the admission checks; a transfer whose file was taken
      over is dropped without touching the file. */
  ghost function AfterInitCheck(w: World, r: Rid, id: Id, size: nat, hash: Digest, lim: Limits): (w': World)
    requires r in w.recv
    ensures Alone(w, w', r) && SameDisk(w, w') && w'.claims == w.claims
    ensures NoneNew(w, w', r)
    ensures w'.recv[r].transfers == if Has(w.recv, r, id) && !Holds(w, X(w.recv, r, id).partial, X(w.recv, r, id).claim)
                                    then w.recv[r].transfers - {id} else w.recv[r].transfers
    ensures w.recv[r].pc.Idle? && OfInit(w'.recv[r].pc) ==> JobIs(w'.recv[r].pc.job, id, size, hash)
    ensures w.recv[r].pc.Idle? && w'.recv[r].pc.Claimed? ==> w'.recv[r].pc.prior
  {
    if !Has(w.recv, r, id) then AfterFreshInit(w, r, id, size, hash, lim)
    else if Holds(w, X(w.recv, r, id).partial, X(w.recv, r, id).claim)
    then AfterRepeatInit(w, r, id, size, hash, lim)
    else AfterFreshInit(DropX(w, r, id, Idle), r, id, size, hash, lim)
  }

  /** The one new claim is receiver r's. */
  ghost predicate ClaimsItself(w: World, w': World, r: Rid) {
    && r in w'.recv && w'.recv[r].pc.Claimed? && !w'.recv[r].pc.prior
    && w'.claims == w.claims[w'.recv[r].pc.job.partial := w'.recv[r].pc.token]
  }

  /** Receiver r takes the path of `job`, remembering whose claim it replaces. */
  ghost function TakeClaim(w: World, r: Rid, job: Job): (w': World)
    requires r in w.recv
    ensures Alone(w, w', r) && SameDisk(w, w') && w'.claims == w.claims[job.partial := w.nextToken]
    ensures w'.recv[r].pc == Claimed(job, w.nextToken, Get(w.claims, job.partial), false) && Live(w', w.nextToken)
    ensures NoneNew(w, w', r) && w'.recv[r].transfers == w.recv[r].transfers
  {
    SetPc(Claim(w, job.partial), r, Claimed(job, w.nextToken, Get(w.claims, job.partial), false))
  }

  ghost function Get<K, V>(m: map<K, V>, k: K): Option<V> {
    if k in m then Some(m[k]) else None
  }

  /** claimPartial; a path claimed by a live transfer since the check is left
      to it, and a private one is used after a second admission. */
  ghost function AfterInitClaim(w: World, r: Rid, lim: Limits): (w': World)
    requires r in w.recv && w.recv[r].pc.Checked?
    ensures Alone(w, w', r) && SameDisk(w, w')
    ensures NoneNew(w, w', r) && w'.recv[r].transfers == w.recv[r].transfers
    ensures OfInit(w'.recv[r].pc) ==> SameJob(w'.recv[r].pc.job, w.recv[r].pc.job)
    ensures w'.claims == w.claims || ClaimsItself(w, w', r)
  {
    var job := w.recv[r].pc.job;
    if HeldLive(w, job.partial) then GoPrivate(TakeName(w), r, job.(partial := Private(job.id, w.nextName)), lim)
    else TakeClaim(w, r, job)
  }

  ghost function GoPrivate(w: World, r: Rid, job: Job, lim: Limits): (w': World)
    requires r in w.recv
    ensures Alone(w, w', r) && SameDisk(w, w')
    ensures NoneNew(w, w', r) && w'.recv[r].transfers == w.recv[r].transfers
    ensures OfInit(w'.recv[r].pc) ==> SameJob(w'.recv[r].pc.job, job)
    ensures w'.claims == w.claims || ClaimsItself(w, w', r)
  {
    var v := AdmitInto(w, job.partial, job.size, lim);
    if v.Admitted? then TakeClaim(w, r, job.(budget := v.budget)) else SetPc(w, r, Idle)
  }

  /** `fail`: hands a claim taken over back to the transfer it came from. */
  ghost function FailInit(w: World, r: Rid): (w': World)
    requires r in w.recv && w.recv[r].pc.Claimed?
    ensures Alone(w, w', r) && w'.saved == w.saved
    ensures NoneNew(w, w', r) && w'.recv[r].transfers == w.recv[r].transfers && w'.recv[r].pc.Idle?
  {
    var pc := w.recv[r].pc;
    if pc.prior then SetPc(w, r, Idle)
    else
      w.(recv := w.recv[r := w.recv[r].(pc := Idle)],
         claims := Unclaimed(w.claims, pc.job.partial, pc.token, pc.prev),
         dir := Removed(w.dir, pc.job.partial))
  }

  ghost function OpenFile(w: World, p: Path): World {
    if p in w.dir then w
    else w.(dir := w.dir[p := w.nextInode], data := w.data[w.nextInode := []], nextInode := w.nextInode + 1)
  }

  /** Opens the .partial, finds the resume offset and registers the transfer. */
  ghost function Register(w: World, r: Rid, statOk: bool, truncOk: bool): (w': World)
    requires r in w.recv && w.recv[r].pc.Claimed?
    ensures Alone(w, w', r) && w'.saved == w.saved && w'.claims == w.claims && w'.dir == w.dir
    ensures (w'.recv[r].pc.Idle? || w' == w) && OthersKept(w.recv[r], w'.recv[r], w.recv[r].pc.job.id)
  {
    var pc := w.recv[r].pc;
    var job := pc.job;
    if job.partial !in w.dir || w.dir[job.partial] !in w.data then w
    else
      var file := w.dir[job.partial];
      var resume := ResumeOffset(if statOk then Some(|w.data[file]|) else None, job.size);
      var t := Transfer(file, job.partial, pc.token, job.hash, Buf(job.size, resume, map[], 0, job.budget));
      w.(data := w.data[file := if resume == 0 && truncOk then [] else w.data[file]],
         recv := w.recv[r := Receiver(w.recv[r].transfers[job.id := t], Idle)])
  }

  ghost function AfterInitFinish(w: World, r: Rid, openOk: bool, statOk: bool, truncOk: bool): (w': World)
    requires r in w.recv && w.recv[r].pc.Claimed?
    ensures Alone(w, w', r) && w'.saved == w.saved
    ensures (w'.recv[r].pc.Idle? || w'.recv[r].pc.Claimed?) && OthersKept(w.recv[r], w'.recv[r], w.recv[r].pc.job.id)
  {
    var pc := w.recv[r].pc;
    if !openOk then FailInit(w, r)
    else
      var w1 := OpenFile(w, pc.job.partial);
      if pc.job.id !in w1.recv[r].transfers && |w1.recv[r].transfers| >= MAX_TRANSFERS then FailInit(w1, r)
      else Register(w1, r, statOk, truncOk)
  }

  // ---- CHUNK -------------------------------------------------------------

  /** writeAt of `bytes` at the cursor of `b`, the transfer's current buffer. */
  ghost function Write(w: World, r: Rid, id: Id, b: Buf, bytes: seq<byte>, out: Outcome): (w': World)
    requires Has(w.recv, r, id)
    ensures Alone(w, w', r) && w'.saved == w.saved && w'.dir == w.dir && w'.claims == w.claims
    ensures OthersKept(w.recv[r], w'.recv[r], id) && Working(w'.recv[r].pc, id) && SameClaims(w.recv[r], w'.recv[r])
  {
    var t := X(w.recv, r, id);
    if !Holds(w, t.partial, t.claim) || t.file !in w.data then SetX(w, r, id, t.(buf := b), Discarding(id))
    else
      var e := WriteEffect(b, w.data[t.file], bytes, out);
      Landed(w, r, id, t.(buf := e.buf), e.file, WrittenTo(id, e.status))
  }

  /** Where a write that was allowed leads. */
  ghost function WrittenTo(id: Id, status: Status): (pc: Pc)
    ensures Working(pc, id)
  {
    match status
    case Fine => Draining(id)
    case WriteError(full) => if full then Abandoning(id) else Idle
    case _ => Idle
  }

  /** The claim is refreshed, and file and transfer are as the write left them. */
  ghost function Landed(w: World, r: Rid, id: Id, t: Transfer, file: seq<byte>, pc: Pc): (w': World)
    requires r in w.recv
    ensures Alone(w, w', r) && w'.saved == w.saved && w'.dir == w.dir && w'.claims == w.claims
    ensures w'.recv[r] == Receiver(w.recv[r].transfers[id := t], pc)
  {
    w.(last := w.last[t.claim := w.now], data := w.data[t.file := file],
       recv := w.recv[r := Receiver(w.recv[r].transfers[id := t], pc)])
  }

  ghost function AfterChunk(w: World, r: Rid, id: Id, off: nat, bytes: seq<byte>, out: Outcome): (w': World)
    requires r in w.recv
    ensures Alone(w, w', r) && w'.saved == w.saved && w'.dir == w.dir && w'.claims == w.claims
    ensures OthersKept(w.recv[r], w'.recv[r], id) && (w'.recv[r].pc == w.recv[r].pc || Working(w'.recv[r].pc, id))
    ensures SameClaims(w.recv[r], w'.recv[r])
  {
    if !Has(w.recv, r, id) then w
    else
      var t := X(w.recv, r, id);
      if off > t.buf.size || |bytes| > t.buf.size - off then w
      else if off == t.buf.cursor then Write(w, r, id, t.buf, bytes, out)
      else if off > t.buf.cursor then SetX(w, r, id, t.(buf := Hold(t.buf, off, bytes)), Idle)
      else w
  }

  ghost function AfterDrain(w: World, r: Rid, out: Outcome): (w': World)
    requires r in w.recv && w.recv[r].pc.Draining?
    ensures Alone(w, w', r) && w'.saved == w.saved && w'.dir == w.dir && w'.claims == w.claims
    ensures OthersKept(w.recv[r], w'.recv[r], w.recv[r].pc.id) && Working(w'.recv[r].pc, w.recv[r].pc.id)
    ensures SameClaims(w.recv[r], w'.recv[r])
  {
    var id := w.recv[r].pc.id;
    if !Has(w.recv, r, id) || X(w.recv, r, id).buf.cursor !in X(w.recv, r, id).buf.pending then SetPc(w, r, Idle)
    else
      var b := X(w.recv, r, id).buf;
      Write(w, r, id, TakeNext(b), b.pending[b.cursor], out)
  }

  // ---- DONE --------------------------------------------------------------

  ghost function AfterDone(w: World, r: Rid, id: Id, syncOk: bool): (w': World)
    requires r in w.recv
    ensures Alone(w, w', r) && SameDisk(w, w') && w'.claims == w.claims
    ensures NoneNew(w, w', r) && (OfInit(w'.recv[r].pc) ==> w'.recv[r].pc == w.recv[r].pc)
  {
    if !Has(w.recv, r, id) then w
    else
      var t := X(w.recv, r, id);
      if !Holds(w, t.partial, t.claim) then SetPc(w, r, Discarding(id))
      else if !syncOk || t.buf.cursor != t.buf.size then Refresh(w, t.claim)
      else RefreshPc(w, t.claim, r, Verifying(id, []))
  }

  /** One read of the verification through the claim; the last one, at the end
      of the file, compares the digests. */
  ghost function AfterHashRead(w: World, r: Rid, n: nat, readOk: bool): (w': World)
    requires r in w.recv && w.recv[r].pc.Verifying? && Has(w.recv, r, w.recv[r].pc.id)
    ensures Alone(w, w', r) && SameDisk(w, w') && w'.claims == w.claims
    ensures NoneNew(w, w', r) && (OfInit(w'.recv[r].pc) ==> w'.recv[r].pc == w.recv[r].pc)
  {
    var id, h := w.recv[r].pc.id, w.recv[r].pc.hashed;
    var t := X(w.recv, r, id);
    if !Holds(w, t.partial, t.claim) || t.file !in w.data then SetPc(w, r, Discarding(id))
    else
      RefreshPc(w, t.claim, r, HashedTo(id, h, w.data[t.file], n, readOk, w.sha(h) == t.hash))
  }

  /** Where a read of up to n bytes leads, h of the file being hashed already. */
  ghost function HashedTo(id: Id, h: seq<byte>, file: seq<byte>, n: nat, readOk: bool, matches: bool): (pc: Pc)
    ensures !OfInit(pc)
  {
    if !readOk then Idle
    else if |h| < |file| then Verifying(id, h + file[|h|..Min(|h| + n, |file|)])
    else if matches then Verified(id, h)
    else Discarding(id)
  }

  /** Nothing else is installed than the next final name. */
  ghost predicate OneSaved(w: World, w': World) {
    forall f :: f != Final(w.nextName) ==> (f in w'.saved <==> f in w.saved) && (f in w.saved ==> w'.saved[f] == w.saved[f])
  }

  /** The rename into place under a fresh final name. */
  ghost function Install(w: World, r: Rid, id: Id, t: Transfer, h: seq<byte>): (w': World)
    requires r in w.recv && t.partial in w.dir
    ensures Alone(w, w', r) && w'.data == w.data && w'.claims == w.claims
    ensures w'.recv[r] == w.recv[r].(pc := Renamed(id, Final(w.nextName))) && OneSaved(w, w')
  {
    var f := Final(w.nextName);
    w.(last := w.last[t.claim := w.now],
       dir := (w.dir - {t.partial})[f := w.dir[t.partial]],
       saved := w.saved[f := Saved(h, t.hash, id)],
       nextName := w.nextName + 1,
       recv := w.recv[r := w.recv[r].(pc := Renamed(id, f))])
  }

  ghost function AfterRename(w: World, r: Rid, ok: bool): (w': World)
    requires r in w.recv && w.recv[r].pc.Prepared? && Has(w.recv, r, w.recv[r].pc.id)
    ensures Alone(w, w', r) && w'.data == w.data && w'.claims == w.claims
    ensures NoneNew(w, w', r) && (OfInit(w'.recv[r].pc) ==> w'.recv[r].pc == w.recv[r].pc)
    ensures OneSaved(w, w')
  {
    var id, h := w.recv[r].pc.id, w.recv[r].pc.hashed;
    var t := X(w.recv, r, id);
    if !Holds(w, t.partial, t.claim) then SetPc(w, r, Discarding(id))
    else
      if !ok || t.partial !in w.dir then RefreshPc(w, t.claim, r, Discarding(id))
      else Install(w, r, id, t, h)
  }

  ghost function AfterCommit(w: World, r: Rid, ok: bool, removeOk: bool): (w': World)
    requires r in w.recv && w.recv[r].pc.Renamed?
    ensures Alone(w, w', r) && w'.data == w.data && w'.claims == w.claims
    ensures NoneNew(w, w', r) && (OfInit(w'.recv[r].pc) ==> w'.recv[r].pc == w.recv[r].pc)
  {
    var pc := w.recv[r].pc;
    if !ok && removeOk
    then w.(dir := w.dir - {pc.final}, saved := w.saved - {pc.final}, recv := w.recv[r := w.recv[r].(pc := Discarding(pc.id))])
    else SetPc(w, r, Discarding(pc.id))
  }

  /** abandonIfDiskFull: deletes the file only while it is still this transfer's. */
  ghost function AfterAbandon(w: World, r: Rid): (w': World)
    requires r in w.recv && w.recv[r].pc.Abandoning? && Has(w.recv, r, w.recv[r].pc.id)
    ensures Alone(w, w', r) && w'.saved == w.saved && w'.data == w.data
    ensures NoneNew(w, w', r) && w'.recv[r].pc.Idle?
    ensures w'.recv[r].transfers == w.recv[r].transfers - {w.recv[r].pc.id}
    ensures Released(w, w', X(w.recv, r, w.recv[r].pc.id))
  {
    var id := w.recv[r].pc.id;
    var t := X(w.recv, r, id);
    if Holds(w, t.partial, t.claim)
    then Discard(w.(last := w.last[t.claim := w.now], dir := w.dir - {t.partial}), r, id)
    else Discard(w, r, id)
  }

  // ---- steps and runs ----------------------------------------------------

  ghost predicate Enabled(w: World, s: Step) {
    s.Tick? || (s.r in w.recv &&
    var pc := w.recv[s.r].pc;
    match s
    case Tick(_) => true
    case InitCheck(_, _, _, _, _) => pc.Idle?
    case InitClaim(_, _) => pc.Checked?
    case InitFinish(_, _, _, _) => pc.Claimed? && Live(w, pc.token)
    case ChunkIn(_, _, _, _, out) => pc.Idle? && !out.TakenOver?
    case DrainOne(_, out) => pc.Draining? && !out.TakenOver?
    case DoneIn(_, _, _) => pc.Idle?
    case HashRead(_, _, _) => pc.Verifying? && Has(w.recv, s.r, pc.id)
    case Prepare(_, _) => pc.Verified?
    case Rename(_, _) => pc.Prepared? && Has(w.recv, s.r, pc.id)
    case Commit(_, _, _) => pc.Renamed?
    case Abandon(_) => pc.Abandoning? && Has(w.recv, s.r, pc.id)
    case FinishDiscard(_) => pc.Discarding? && Has(w.recv, s.r, pc.id)
    case Drop(_, id) => pc.Idle? && Has(w.recv, s.r, id))
  }

  ghost function Next(w: World, s: Step): (w': World)
    requires Enabled(w, s)
    ensures if s.Tick? then w' == w.(now := w.now + s.d) else Alone(w, w', s.r)
    ensures !s.Rename? && !s.Commit? ==> w'.saved == w.saved
    ensures !s.InitClaim? && !s.InitFinish? && !s.Abandon? && !s.FinishDiscard? && !s.Drop? ==> w'.claims == w.claims
    ensures !s.Tick? && !s.InitFinish? && !s.ChunkIn? && !s.DrainOne? ==> NoneNew(w, w', s.r)
    ensures !s.Tick? && !s.InitCheck? && !s.InitClaim? && !s.InitFinish? && !s.ChunkIn? && !s.DrainOne? ==>
              !OfInit(w'.recv[s.r].pc)
    ensures s.Tick? || s.InitCheck? || s.InitClaim? || s.DoneIn? || s.HashRead? || s.Prepare? ==> SameDisk(w, w')
  {
    match s
    case Tick(d) => w.(now := w.now + d)
    case InitCheck(r, id, size, hash, lim) => AfterInitCheck(w, r, id, size, hash, lim)
    case InitClaim(r, lim) => AfterInitClaim(w, r, lim)
    case InitFinish(r, openOk, statOk, truncOk) => AfterInitFinish(w, r, openOk, statOk, truncOk)
    case ChunkIn(r, id, off, bytes, out) => AfterChunk(w, r, id, off, bytes, out)
    case DrainOne(r, out) => AfterDrain(w, r, out)
    case DoneIn(r, id, syncOk) => AfterDone(w, r, id, syncOk)
    case HashRead(r, n, readOk) => AfterHashRead(w, r, n, readOk)
    case Prepare(r, ok) =>
      var pc := w.recv[r].pc;
      SetPc(w, r, if ok then Prepared(pc.id, pc.hashed) else Discarding(pc.id))
    case Rename(r, ok) => AfterRename(w, r, ok)
    case Commit(r, ok, removeOk) => AfterCommit(w, r, ok, removeOk)
    case Abandon(r) => AfterAbandon(w, r)
    case FinishDiscard(r) => Discard(w, r, w.recv[r].pc.id)
    case Drop(r, id) => Discard(w, r, id)
  }

  ghost predicate ValidRun(w: World, ss: seq<Step>)
    decreases |ss|
  {
    ss == [] || (Enabled(w, ss[0]) && ValidRun(Next(w, ss[0]), ss[1..]))
  }

  ghost function After(w: World, ss: seq<Step>): World
    requires ValidRun(w, ss)
    decreases |ss|
  {
    if ss == [] then w else After(Next(w, ss[0]), ss[1..])
  }

  /** A process that just started: nothing claimed, no transfer, any disk. */
  ghost predicate Initial(w: World) {
    && w.claims == map[] && w.last == map[] && w.home == map[] && w.saved == map[]
    && (forall r :: r in w.recv ==> w.recv[r] == Receiver(map[], Idle))
    && (forall p :: p in w.dir ==> w.dir[p] in w.data && Numbered(w, p))
    && (forall p, q :: p in w.dir && q in w.dir && w.dir[p] == w.dir[q] ==> p == q)
    && (forall i :: i in w.data ==> i < w.nextInode)
  }

  ghost predicate Numbered(w: World, p: Path) {
    p.Shared? || p.n < w.nextName
  }
}
