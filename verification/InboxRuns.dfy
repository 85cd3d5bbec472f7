/**
 * Every run of the inbox: writers reserve, write and settle, the periodic pass
 * evicts, other processes delete. The cap holds throughout, and the running
 * total is an upper bound of what a listing would find.
 */
module InboxRuns {
  import opened Prelude
  import opened InboxSpec

  datatype Step =
    | ReserveStep(path: Name, size: nat, seedOk: bool, listOk: bool, order: seq<Name>, ok: set<Name>)
    | WriteStep(path: Name, size: nat)
    | SettleStep(path: Name, written: bool)
    | EvictStep(maxFiles: nat, listOk: bool, order: seq<Name>, ok: set<Name>)
    | ForeignStep(names: set<Name>)

  ghost predicate Enabled(s: Inbox, st: Step, age: Name -> int) {
    match st
    case ReserveStep(path, _, _, _, order, _) =>
      path !in s.files && path !in s.resv && Lists(order, SettledFiles(s)) && OldestFirst(order, age)
    case WriteStep(path, size) => path in s.resv && size <= s.resv[path]
    case SettleStep(path, written) =>
      path in s.resv && (written && path in s.files ==> s.files[path] == s.resv[path])
    case EvictStep(_, _, order, _) => Lists(order, SettledFiles(s)) && OldestFirst(order, age)
    case ForeignStep(_) => true
  }

  ghost function Next(s: Inbox, st: Step, max: nat): Inbox
    requires st.SettleStep? ==> st.path in s.resv
  {
    match st
    case ReserveStep(path, size, seedOk, listOk, order, ok) => ReserveWith(s, path, size, max, seedOk, listOk, order, ok).0
    case WriteStep(path, size) => s.(files := s.files[path := size])
    case SettleStep(path, written) => WriteDone(s, path, written)
    case EvictStep(maxFiles, listOk, order, ok) =>
      if listOk then EvictOverflow(s, max, maxFiles, order, ok) else s.(b := s.b.(scans := s.b.scans + 1))
    case ForeignStep(names) => s.(files := s.files - names)
  }

  ghost predicate ValidRun(s: Inbox, ss: seq<Step>, max: nat, age: Name -> int)
    decreases |ss|
  {
    ss == [] || (Enabled(s, ss[0], age) && ValidRun(Next(s, ss[0], max), ss[1..], max, age))
  }

  ghost function After(s: Inbox, ss: seq<Step>, max: nat, age: Name -> int): Inbox
    requires ValidRun(s, ss, max, age)
    decreases |ss|
  {
    if ss == [] then s else After(Next(s, ss[0], max), ss[1..], max, age)
  }

  /** A service that just started, over any directory. */
  ghost predicate Initial(s: Inbox) {
    s.b == Budget(false, 0, 0, {}, 0) && s.resv == map[] && s.leak == 0 && s.excess == 0 && !s.capped
  }

  // ---- the invariant -----------------------------------------------------

  /** pending is exactly the reservations in flight, and each file still being
      written is within its reservation. */
  ghost predicate Reservations(s: Inbox) {
    && s.b.inflight == s.resv.Keys && s.b.pending == Total(s.resv)
    && Within(Unsettled(s.files, s.b.inflight), s.resv)
  }

  /** The running total is at least what a listing would find, but for leaks. */
  ghost predicate UpperBound(s: Inbox) {
    s.b.known ==> Total(SettledFiles(s)) <= s.b.onDisk + s.leak
  }

  ghost predicate Capped(s: Inbox, max: nat) {
    s.leak <= s.excess && (s.capped ==> s.b.known && s.b.onDisk + s.b.pending + s.leak <= max + s.excess)
  }

  ghost predicate Inv(s: Inbox, max: nat) {
    Reservations(s) && UpperBound(s) && Capped(s, max) && s.b.pending <= max && 0 <= s.b.onDisk
  }

  lemma InitialInv(s: Inbox, max: nat)
    requires Initial(s)
    ensures Inv(s, max)
  {
  }

  lemma RescanInv(s: Inbox, max: nat)
    requires Inv(s, max)
    ensures Inv(Rescan(s), max)
  {
  }

  ghost predicate Exact(s: Inbox) {
    s.b.known && s.b.onDisk == Total(SettledFiles(s)) && s.leak == 0
  }

  /** Evicting from an exact total leaves it exact and smaller, and no file in
      flight is touched. */
  lemma ShrinkInv(s: Inbox, order: seq<Name>, limit: int, ok: set<Name>, max: nat)
    requires Inv(s, max) && Exact(s)
    ensures var s' := Shrink(s, order, limit, ok);
            Inv(s', max) && Exact(s') && s'.b == s.b.(onDisk := s'.b.onDisk) && s'.b.onDisk <= s.b.onDisk
            && Unsettled(s'.files, s.b.inflight) == Unsettled(s.files, s.b.inflight)
  {
    var s', r := Shrink(s, order, limit, ok), Evict(order, SettledFiles(s), s.b.onDisk, limit, ok);
    EvictTotal(order, SettledFiles(s), limit, ok);
    ShrinkSettled(s, order, limit, ok);
    assert Unsettled(s'.files, s.b.inflight) == Unsettled(s.files, s.b.inflight);
  }

  lemma AdmitInv(s: Inbox, path: Name, size: nat, max: nat)
    requires Inv(s, max) && path !in s.files && path !in s.resv
    ensures var s' := AdmitInto(s, path, size);
            && Reservations(s') && UpperBound(s') && SettledFiles(s') == SettledFiles(s)
            && s'.b.onDisk == s.b.onDisk && s'.b.pending == s.b.pending + size
  {
    var s' := AdmitInto(s, path, size);
    TotalAdd(s.resv, path, size);
    assert SettledFiles(s') == SettledFiles(s);
    assert Unsettled(s'.files, s'.b.inflight) == Unsettled(s.files, s.b.inflight);
  }

  /** s' is s after a listing and perhaps an eviction. */
  ghost predicate Relisted(s: Inbox, s': Inbox) {
    && s'.b.pending == s.b.pending && s'.b.inflight == s.b.inflight && s'.resv == s.resv
    && s'.files.Keys <= s.files.Keys
    && Unsettled(s'.files, s.b.inflight) == Unsettled(s.files, s.b.inflight)
  }

  lemma ShrinkRelists(s: Inbox, order: seq<Name>, limit: int, ok: set<Name>, max: nat)
    requires Inv(s, max)
    ensures var s' := Shrink(Rescan(s), order, limit, ok); Inv(s', max) && Exact(s') && Relisted(s, s')
  {
    RescanInv(s, max);
    assert SettledFiles(Rescan(s)) == SettledFiles(s);
    ShrinkInv(Rescan(s), order, limit, ok, max);
  }

  lemma SeededInv(s: Inbox, max: nat)
    requires Inv(s, max)
    ensures Roomy(s, Seeded(s), max)
  {
    RescanInv(s, max);
  }

  lemma EvictForInv(s: Inbox, limit: int, order: seq<Name>, ok: set<Name>, max: nat)
    requires Inv(s, max)
    ensures Roomy(s, Rescan(s), max) && Roomy(s, Shrink(Rescan(s), order, limit, ok), max)
  {
    RescanInv(s, max);
    ShrinkRelists(s, order, limit, ok, max);
  }

  /** What making room keeps. */
  ghost predicate Roomy(s: Inbox, s': Inbox, max: nat) { Inv(s', max) && s'.b.known && Relisted(s, s') }

  lemma RoomyThen(s: Inbox, s1: Inbox, s2: Inbox, max: nat)
    requires Roomy(s, s1, max) && Roomy(s1, s2, max)
    ensures Roomy(s, s2, max)
  {
  }

  lemma MakeRoomInv(s: Inbox, size: nat, max: nat, order: seq<Name>, ok: set<Name>)
    requires Inv(s, max)
    ensures Roomy(s, MakeRoom(s, size, max, order, ok), max)
  {
    var s1 := Seeded(s);
    var limit := Target(s1, size, max) - size - s1.b.pending;
    SeededInv(s, max);
    EvictForInv(s1, limit, order, ok, max);
    RoomyThen(s, s1, Rescan(s1), max);
    RoomyThen(s, s1, Shrink(Rescan(s1), order, limit, ok), max);
  }

  lemma ReserveInv(s: Inbox, path: Name, size: nat, max: nat, order: seq<Name>, ok: set<Name>)
    requires Inv(s, max) && path !in s.files && path !in s.resv
    ensures Inv(Reserve(s, path, size, max, order, ok).0, max)
  {
    MakeRoomInv(s, size, max, order, ok);
    AdmitInv(MakeRoom(s, size, max, order, ok), path, size, max);
  }

  lemma AdmitUncheckedInv(s: Inbox, path: Name, size: nat, max: nat)
    requires Inv(s, max) && path !in s.files && path !in s.resv && size + s.b.pending <= max
    ensures Inv(AdmitUnchecked(s, path, size), max)
  {
    AdmitInv(s, path, size, max);
    assert SettledFiles(AdmitUnchecked(s, path, size)) == SettledFiles(AdmitInto(s, path, size));
  }

  lemma UnlistedInv(s: Inbox, path: Name, size: nat, max: nat, seedOk: bool)
    requires Inv(s, max) && path !in s.files && path !in s.resv
    ensures Inv(ReserveUnlisted(s, path, size, max, seedOk).0, max)
  {
    if size + s.b.pending <= max {
      RescanInv(s, max);
      AdmitUncheckedInv(s, path, size, max);
      AdmitUncheckedInv(Seeded(s), path, size, max);
      AdmitInv(Seeded(s), path, size, max);
    }
  }

  lemma WriteInv(s: Inbox, path: Name, size: nat, max: nat)
    requires Inv(s, max) && path in s.resv && size <= s.resv[path]
    ensures Inv(s.(files := s.files[path := size]), max)
  {
    var s' := s.(files := s.files[path := size]);
    assert SettledFiles(s') == SettledFiles(s);
  }

  /** Settling: the clamp at zero never fires, and the file moves from the
      reservation to the total, or into `leak`. */
  lemma SettleInv(s: Inbox, path: Name, written: bool, max: nat)
    requires Inv(s, max) && path in s.resv
    requires written && path in s.files ==> s.files[path] == s.resv[path]
    ensures Inv(WriteDone(s, path, written), max)
    ensures WriteDone(s, path, written).b.pending == s.b.pending - s.resv[path]
  {
    var s' := WriteDone(s, path, written);
    TotalRemove(s.resv, path);
    if path in s.files {
      assert path in Unsettled(s.files, s.b.inflight);
      TotalAdd(SettledFiles(s), path, s.files[path]);
      assert SettledFiles(s') == SettledFiles(s)[path := s.files[path]];
    } else {
      assert SettledFiles(s') == SettledFiles(s);
    }
  }

  lemma ForeignInv(s: Inbox, names: set<Name>, max: nat)
    requires Inv(s, max)
    ensures Inv(s.(files := s.files - names), max)
  {
    TotalWithin(SettledFiles(s.(files := s.files - names)), SettledFiles(s));
  }

  lemma ByteTrimInv(s: Inbox, rest: seq<Name>, max: nat, ok: set<Name>, s': Inbox)
    requires Inv(s, max) && Exact(s)
    requires s' == if s.b.onDisk + s.b.pending <= max then s
                   else Shrink(s, rest, Target(s, 0, max) - s.b.pending, ok)
    ensures Inv(s', max) && Unsettled(s'.files, s.b.inflight) == Unsettled(s.files, s.b.inflight)
  {
    ShrinkInv(s, rest, Target(s, 0, max) - s.b.pending, ok, max);
  }

  lemma TrimmedInv(s: Inbox, order: seq<Name>, extra: nat, max: nat, ok: set<Name>)
    requires Inv(s, max) && Exact(s) && extra <= |order|
    ensures var s' := Trimmed(s, order, extra, max, ok);
            Inv(s', max) && Unsettled(s'.files, s.b.inflight) == Unsettled(s.files, s.b.inflight)
  {
    ShrinkInv(s, order[..extra], -1, ok, max);
    ByteTrimInv(Shrink(s, order[..extra], -1, ok), order[extra..], max, ok, Trimmed(s, order, extra, max, ok));
  }

  lemma EvictInv(s: Inbox, max: nat, maxFiles: nat, order: seq<Name>, ok: set<Name>)
    requires Inv(s, max)
    ensures var s' := EvictOverflow(s, max, maxFiles, order, ok);
            Inv(s', max) && Unsettled(s'.files, s.b.inflight) == Unsettled(s.files, s.b.inflight)
  {
    var s1 := Rescan(s);
    RescanInv(s, max);
    assert SettledFiles(s1) == SettledFiles(s);
    TrimmedInv(s1, order, Surplus(|order|, maxFiles), max, ok);
  }

  lemma StepInv(s: Inbox, st: Step, max: nat, age: Name -> int)
    requires Inv(s, max) && Enabled(s, st, age)
    ensures Inv(Next(s, st, max), max)
  {
    match st
    case ReserveStep(path, size, seedOk, listOk, order, ok) =>
      if (s.b.known || seedOk) && listOk { ReserveInv(s, path, size, max, order, ok); }
      else { UnlistedInv(s, path, size, max, seedOk); }
    case WriteStep(path, size) => WriteInv(s, path, size, max);
    case SettleStep(path, written) => SettleInv(s, path, written, max);
    case EvictStep(maxFiles, listOk, order, ok) => if listOk { EvictInv(s, max, maxFiles, order, ok); }
    case ForeignStep(names) => ForeignInv(s, names, max);
  }

  lemma {:induction false} RunInv(s: Inbox, ss: seq<Step>, max: nat, age: Name -> int)
    requires Inv(s, max) && ValidRun(s, ss, max, age)
    ensures Inv(After(s, ss, max, age), max)
    decreases |ss|
  {
    if ss != [] {
      StepInv(s, ss[0], max, age);
      RunInv(Next(s, ss[0], max), ss[1..], max, age);
    }
  }

  // ---- the cap -----------------------------------------------------------

  lemma DiskBytes(s: Inbox, max: nat)
    requires Inv(s, max) && s.capped
    ensures Total(s.files) <= max + s.excess
  {
    TotalSplit(s.files, s.b.inflight);
    TotalWithin(Unsettled(s.files, s.b.inflight), s.resv);
  }

  /** From the first checked reservation on, in every interleaving, settled plus
      in-flight bytes on disk exceed the cap by at most what failed writes left
      behind and what was admitted while the directory could not be listed;
      with neither they never exceed it. `pending` is the reservations in
      flight, and the running total bounds the settled bytes. */
  lemma InboxCapHolds(s: Inbox, ss: seq<Step>, max: nat, age: Name -> int)
    requires Initial(s) && ValidRun(s, ss, max, age)
    ensures var v := After(s, ss, max, age);
            && (v.capped ==> Total(v.files) <= max + v.excess)
            && (v.capped && v.excess == 0 ==> Total(v.files) <= max)
            && v.b.pending == Total(v.resv) <= max
            && (v.b.known && v.excess == 0 ==> Total(SettledFiles(v)) <= v.b.onDisk)
  {
    InitialInv(s, max);
    RunInv(s, ss, max, age);
    if After(s, ss, max, age).capped { DiskBytes(After(s, ss, max, age), max); }
  }

  /** No eviction, by reservation or by the periodic pass, touches a file in flight. */
  lemma InFlightNeverEvicted(s: Inbox, ss: seq<Step>, max: nat, age: Name -> int, st: Step, p: Name)
    requires Initial(s) && ValidRun(s, ss, max, age) && Enabled(After(s, ss, max, age), st, age)
    requires st.ReserveStep? || st.EvictStep?
    requires p in After(s, ss, max, age).resv && p in After(s, ss, max, age).files
    ensures var v := After(s, ss, max, age);
            p in Next(v, st, max).files && Next(v, st, max).files[p] == v.files[p]
  {
    InitialInv(s, max);
    RunInv(s, ss, max, age);
    var v := After(s, ss, max, age);
    assert p in Unsettled(v.files, v.b.inflight);
    if st.EvictStep? {
      if st.listOk {
        EvictInv(v, max, st.maxFiles, st.order, st.ok);
        assert p in Unsettled(Next(v, st, max).files, v.b.inflight);
      }
    } else if (v.b.known || st.seedOk) && st.listOk {
      MakeRoomInv(v, st.size, max, st.order, st.ok);
      assert p in Unsettled(MakeRoom(v, st.size, max, st.order, st.ok).files, v.b.inflight);
    }
  }

  lemma RunCons(s: Inbox, st: Step, rest: seq<Step>, max: nat, age: Name -> int)
    requires Enabled(s, st, age) && ValidRun(Next(s, st, max), rest, max, age)
    ensures ValidRun(s, [st] + rest, max, age)
    ensures After(s, [st] + rest, max, age) == After(Next(s, st, max), rest, max, age)
  {
  }

  /** A message of 8 bytes reserved under a cap of 10, written and settled as it may be. */
  lemma FirstMessage(s: Inbox, age: Name -> int)
    requires s == Inbox(map[], Budget(false, 0, 0, {}, 0), map[], 0, 0, false)
    ensures Enabled(s, ReserveStep("a", 8, true, true, [], {}), age)
    ensures Next(s, ReserveStep("a", 8, true, true, [], {}), 10)
            == Inbox(map[], Budget(true, 0, 8, {"a"}, 1), map["a" := 8], 0, 0, true)
  {
  }

  lemma SecondMessage(s: Inbox, age: Name -> int)
    requires s == Inbox(map["a" := 7], Budget(true, 0, 0, {}, 1), map[], 7, 7, true)
    ensures Enabled(s, ReserveStep("b", 8, true, true, ["a"], {}), age)
    ensures Next(s, ReserveStep("b", 8, true, true, ["a"], {}), 10)
            == Inbox(map["a" := 7], Budget(true, 0, 8, {"b"}, 1), map["b" := 8], 7, 7, true)
  {
  }

  /** Why `excess` is needed: a write that fails half way leaves its bytes on
      disk uncounted, and the next message takes the inbox over its cap. */
  lemma FailedWriteCanExceedCap(age: Name -> int) returns (s: Inbox, ss: seq<Step>)
    ensures Initial(s) && s.files == map[] && ValidRun(s, ss, 10, age)
    ensures Total(After(s, ss, 10, age).files) == 15 > 10
  {
    s := Inbox(map[], Budget(false, 0, 0, {}, 0), map[], 0, 0, false);
    FirstMessage(s, age);
    var s1 := Inbox(map[], Budget(true, 0, 8, {"a"}, 1), map["a" := 8], 0, 0, true);
    var s2 := s1.(files := map["a" := 7]);
    assert Next(s1, WriteStep("a", 7), 10) == s2;
    var s3 := Inbox(map["a" := 7], Budget(true, 0, 0, {}, 1), map[], 7, 7, true);
    assert Next(s2, SettleStep("a", false), 10) == s3;
    SecondMessage(s3, age);
    var s4 := Inbox(map["a" := 7], Budget(true, 0, 8, {"b"}, 1), map["b" := 8], 7, 7, true);
    var s5 := Next(s4, WriteStep("b", 8), 10);
    TotalAdd(map[], "a", 7);
    TotalAdd(map["a" := 7], "b", 8);
    RunCons(s4, WriteStep("b", 8), [], 10, age);
    RunCons(s3, ReserveStep("b", 8, true, true, ["a"], {}), [WriteStep("b", 8)], 10, age);
    ss := [ReserveStep("b", 8, true, true, ["a"], {})] + [WriteStep("b", 8)];
    RunCons(s2, SettleStep("a", false), ss, 10, age);
    ss := [SettleStep("a", false)] + ss;
    RunCons(s1, WriteStep("a", 7), ss, 10, age);
    ss := [WriteStep("a", 7)] + ss;
    RunCons(s, ReserveStep("a", 8, true, true, [], {}), ss, 10, age);
    ss := [ReserveStep("a", 8, true, true, [], {})] + ss;
  }

  // ---- eviction is exact -------------------------------------------------

  /** An eviction whose removals succeed reaches its limit. */
  lemma ShrinkReaches(s: Inbox, order: seq<Name>, limit: nat, ok: set<Name>)
    requires Exact(s) && Lists(order, SettledFiles(s)) && SettledFiles(s).Keys <= ok
    ensures Shrink(s, order, limit, ok).b.onDisk <= limit
  {
    var d := SettledFiles(s);
    EvictAll(order, d, Total(d), limit, ok, d.Keys);
    var k := EvictShortestPrefix(order, d, limit);
  }

  lemma MakeRoomReaches(s: Inbox, size: nat, max: nat, order: seq<Name>, ok: set<Name>)
    requires Inv(s, max) && size + s.b.pending <= max
    requires Lists(order, SettledFiles(s)) && SettledFiles(s).Keys <= ok
    ensures var s' := MakeRoom(s, size, max, order, ok); s'.b.onDisk + s'.b.pending + size <= max
    ensures var s' := MakeRoom(s, size, max, order, ok);
            SettledFiles(s') != SettledFiles(s) ==> s'.b.onDisk + s'.b.pending + size <= Target(s, size, max)
  {
    var s1 := Seeded(s);
    var s2 := Rescan(s1);
    assert SettledFiles(s2) == SettledFiles(s1) == SettledFiles(s);
    LowWaterExact(max);
    if s1.b.onDisk + s1.b.pending + size > max && s2.b.onDisk + s2.b.pending + size > max {
      ShrinkReaches(s2, order, Target(s2, size, max) - size - s2.b.pending, ok);
    }
  }

  /** When removals succeed, a message is refused exactly when it and the writes
      in flight do not fit even in an empty inbox, and then nothing changes. */
  lemma RefusedIffTooBig(s: Inbox, path: Name, size: nat, max: nat, order: seq<Name>, ok: set<Name>)
    requires Inv(s, max) && Lists(order, SettledFiles(s)) && SettledFiles(s).Keys <= ok
    ensures Reserve(s, path, size, max, order, ok).1 <==> size + s.b.pending <= max
    ensures !Reserve(s, path, size, max, order, ok).1 ==> Reserve(s, path, size, max, order, ok).0 == s
  {
    if size + s.b.pending <= max { MakeRoomReaches(s, size, max, order, ok); }
  }

  /** The level a reservation trims to: 90 % of the cap, or the cap itself when
      the message and the writes in flight are over that. */
  ghost function TrimLevel(size: nat, pending: int, max: nat): nat {
    if size + pending > 90 * max / 100 then max else 90 * max / 100
  }

  /** Files in flight are as they were, the message is booked and nothing else. */
  ghost predicate Booked(s: Inbox, s': Inbox, path: Name, size: nat) {
    && s'.resv == s.resv[path := size] && s'.b.pending == s.b.pending + size && s'.b.inflight == s.b.inflight + {path}
    && Unsettled(s'.files, s.b.inflight) == Unsettled(s.files, s.b.inflight)
  }

  /** The settled files d lost the first k of the listing, the fewest that bring
      them to the limit. */
  ghost predicate Cost(d: Dir, d': Dir, order: seq<Name>, limit: int, k: nat) {
    && k <= |order| && d' == d - First(order, k)
    && (k > 0 ==> Total(d - First(order, k - 1)) > limit >= Total(d'))
  }

  lemma LevelIs(s: Inbox, size: nat, max: nat)
    requires size + s.b.pending <= max
    ensures size + s.b.pending <= Target(s, size, max) == TrimLevel(size, s.b.pending, max) <= max
  {
    LowWaterExact(max);
  }

  /** What a reservation makes of the inbox before it books the message. */
  ghost function Room(s: Inbox, size: nat, max: nat, level: nat, order: seq<Name>, ok: set<Name>): Inbox {
    var s1 := Seeded(s);
    if s1.b.onDisk + s.b.pending + size <= max then s1
    else if Total(SettledFiles(s)) + s.b.pending + size <= max then Rescan(s1)
    else Shrink(Rescan(s1), order, level - size - s.b.pending, ok)
  }

  lemma MakeRoomIsRoom(s: Inbox, size: nat, max: nat, order: seq<Name>, ok: set<Name>)
    requires size + s.b.pending <= max
    ensures MakeRoom(s, size, max, order, ok) == Room(s, size, max, TrimLevel(size, s.b.pending, max), order, ok)
  {
    RescanExact(s);
    RescanExact(Seeded(s));
    LevelIs(Rescan(Seeded(s)), size, max);
  }

  lemma EvictCosts(order: seq<Name>, d: Dir, limit: nat, ok: set<Name>) returns (k: nat)
    requires Lists(order, d) && d.Keys <= ok && Total(d) > limit
    ensures k > 0 && Cost(d, Evict(order, d, Total(d), limit, ok).1, order, limit, k)
  {
    EvictTotal(order, d, limit, d.Keys);
    EvictAll(order, d, Total(d), limit, ok, d.Keys);
    k := EvictShortestPrefix(order, d, limit);
    NoneFirst(order, d);
  }

  lemma RoomTrims(s: Inbox, size: nat, max: nat, level: nat, order: seq<Name>, ok: set<Name>) returns (k: nat)
    requires 0 <= s.b.pending && size + s.b.pending <= level <= max && Total(SettledFiles(s)) + s.b.pending + size > max
    requires Lists(order, SettledFiles(s)) && SettledFiles(s).Keys <= ok
    ensures var limit := level - size - s.b.pending;
            k > 0 && Cost(SettledFiles(s), SettledFiles(Shrink(Rescan(s), order, limit, ok)), order, limit, k)
  {
    var limit := level - size - s.b.pending;
    RescanExact(s);
    ShrinkSettled(Rescan(s), order, limit, ok);
    k := EvictCosts(order, SettledFiles(s), limit, ok);
  }

  lemma NoCost(d: Dir, order: seq<Name>, limit: int)
    ensures Cost(d, d, order, limit, 0)
  {
    NoneFirst(order, d);
  }

  lemma RoomCosts(s: Inbox, size: nat, max: nat, level: nat, order: seq<Name>, ok: set<Name>) returns (k: nat)
    requires 0 <= s.b.pending && size + s.b.pending <= level <= max
    requires Lists(order, SettledFiles(s)) && SettledFiles(s).Keys <= ok
    ensures var d := SettledFiles(s);
            && Cost(d, SettledFiles(Room(s, size, max, level, order, ok)), order, level - size - s.b.pending, k)
            && (k > 0 <==> Total(d) + s.b.pending + size > max && (s.b.known ==> s.b.onDisk + s.b.pending + size > max))
  {
    var s1 := Seeded(s);
    RescanExact(s);
    RescanExact(s1);
    k := 0;
    NoCost(SettledFiles(s), order, level - size - s.b.pending);
    if s1.b.onDisk + s.b.pending + size > max && Total(SettledFiles(s)) + s.b.pending + size > max {
      k := RoomTrims(s1, size, max, level, order, ok);
    }
  }

  lemma RescanExact(s: Inbox)
    ensures SettledFiles(Rescan(s)) == SettledFiles(s) && Exact(Rescan(s))
  {
  }

  /** A message that fits beside the writes in flight is admitted, when removals
      succeed, at the cost of the oldest settled files and no more of them than it
      takes: none unless the settled files leave it no room and the running total,
      if there is one, says so; and then the fewest that bring the inbox down to
      the trim level. */
  lemma ReserveEvictsOldest(s: Inbox, path: Name, size: nat, max: nat, order: seq<Name>, ok: set<Name>) returns (k: nat)
    requires Inv(s, max) && size + s.b.pending <= max && path !in s.files && path !in s.resv
    requires Lists(order, SettledFiles(s)) && SettledFiles(s).Keys <= ok
    ensures var (s', admitted) := Reserve(s, path, size, max, order, ok);
            var d := SettledFiles(s);
            && admitted && Booked(s, s', path, size)
            && Cost(d, SettledFiles(s'), order, TrimLevel(size, s.b.pending, max) - size - s.b.pending, k)
            && (k > 0 <==> Total(d) + s.b.pending + size > max && (s.b.known ==> s.b.onDisk + s.b.pending + size > max))
  {
    LevelIs(s, size, max);
    MakeRoomIsRoom(s, size, max, order, ok);
    k := RoomCosts(s, size, max, TrimLevel(size, s.b.pending, max), order, ok);
    ReserveBooks(s, path, size, max, order, ok);
  }

  /** Beyond making room, a reservation only books the message. */
  lemma ReserveBooks(s: Inbox, path: Name, size: nat, max: nat, order: seq<Name>, ok: set<Name>)
    requires Inv(s, max) && size + s.b.pending <= max && path !in s.files && path !in s.resv
    requires Lists(order, SettledFiles(s)) && SettledFiles(s).Keys <= ok
    ensures var (s', admitted) := Reserve(s, path, size, max, order, ok);
            admitted && Booked(s, s', path, size) && SettledFiles(s') == SettledFiles(MakeRoom(s, size, max, order, ok))
  {
    RefusedIffTooBig(s, path, size, max, order, ok);
    MakeRoomInv(s, size, max, order, ok);
    var s1 := MakeRoom(s, size, max, order, ok);
    assert path !in s1.files;
    assert SettledFiles(AdmitInto(s1, path, size)) == SettledFiles(s1);
  }

  /** When a listing that is needed fails, nothing is evicted and the message is
      admitted all the same, exactly if it fits beside the writes in flight. */
  lemma UnlistedEvictsNothing(s: Inbox, path: Name, size: nat, max: nat, seedOk: bool, listOk: bool,
                              order: seq<Name>, ok: set<Name>)
    requires Inv(s, max) && ((!s.b.known && !seedOk) || !listOk)
    ensures var (s', admitted) := ReserveWith(s, path, size, max, seedOk, listOk, order, ok);
            && s'.files == s.files && (admitted <==> size + s.b.pending <= max)
            && (if admitted then Booked(s, s', path, size) else s' == s)
  {
  }

  // ---- the periodic pass -------------------------------------------------

  lemma {:induction false} EvictEvery(order: seq<Name>, d: Dir, ok: set<Name>)
    requires d.Keys <= ok && (forall i :: 0 <= i < |order| ==> order[i] in d)
    requires forall i, j :: 0 <= i < j < |order| ==> order[i] != order[j]
    ensures var r := Evict(order, d, Total(d), -1, ok);
            r.1 == d - First(order, |order|) && r.0 == Total(r.1)
  {
    if order == [] {
      NoneFirst(order, d);
    } else {
      TotalRemove(d, order[0]);
      EvictEvery(order[1..], d - {order[0]}, ok);
      FirstStep(order, |order|, d);
    }
  }

  lemma RestLists(order: seq<Name>, d: Dir, i: nat)
    requires Lists(order, d) && i <= |order|
    ensures Lists(order[i..], d - First(order, i))
  {
  }

  /** The count trim removes exactly the oldest `extra` files. */
  lemma CountTrim(s: Inbox, order: seq<Name>, extra: nat, ok: set<Name>)
    requires Exact(s) && Lists(order, SettledFiles(s)) && SettledFiles(s).Keys <= ok && extra <= |order|
    ensures var s1 := Shrink(s, order[..extra], -1, ok);
            SettledFiles(s1) == SettledFiles(s) - First(order, extra) && Exact(s1) && s1.b.pending == s.b.pending
  {
    var d := SettledFiles(s);
    EvictEvery(order[..extra], d, ok);
    assert First(order[..extra], extra) == First(order, extra) by { assert order[..extra][..extra] == order[..extra]; }
    ShrinkSettled(s, order[..extra], -1, ok);
  }

  /** The byte trim removes the fewest oldest files that reach its limit. */
  lemma ByteTrim(s: Inbox, order: seq<Name>, limit: nat, ok: set<Name>) returns (k: nat)
    requires Exact(s) && Lists(order, SettledFiles(s)) && SettledFiles(s).Keys <= ok
    ensures k <= |order| && (k > 0 ==> Total(SettledFiles(s) - First(order, k - 1)) > limit)
    ensures SettledFiles(Shrink(s, order, limit, ok)) == SettledFiles(s) - First(order, k)
    ensures Shrink(s, order, limit, ok).b.onDisk <= limit
  {
    var d := SettledFiles(s);
    EvictAll(order, d, Total(d), limit, ok, d.Keys);
    k := EvictShortestPrefix(order, d, limit);
    ShrinkSettled(s, order, limit, ok);
  }

  /** The byte trim of the periodic pass, over what the count trim left. */
  lemma BytesAfterCount(s: Inbox, rest: seq<Name>, max: nat, ok: set<Name>, s': Inbox) returns (j: nat)
    requires Exact(s) && 0 <= s.b.pending <= max && Lists(rest, SettledFiles(s)) && SettledFiles(s).Keys <= ok
    requires s' == if s.b.onDisk + s.b.pending <= max then s
                   else Shrink(s, rest, Target(s, 0, max) - s.b.pending, ok)
    ensures j <= |rest| && SettledFiles(s') == SettledFiles(s) - First(rest, j)
    ensures j > 0 ==> s.b.onDisk + s.b.pending > max
    ensures j > 0 ==> Total(SettledFiles(s) - First(rest, j - 1)) + s.b.pending > Target(s, 0, max)
    ensures s'.b.onDisk + s'.b.pending <= max
  {
    LowWaterExact(max);
    j := 0;
    if s.b.onDisk + s.b.pending > max {
      j := ByteTrim(s, rest, Target(s, 0, max) - s.b.pending, ok);
    } else {
      NoneFirst(rest, SettledFiles(s));
    }
  }

  lemma TrimmedOldest(s: Inbox, order: seq<Name>, extra: nat, max: nat, ok: set<Name>) returns (j: nat)
    requires Exact(s) && 0 <= s.b.pending <= max && extra <= |order|
    requires Lists(order, SettledFiles(s)) && SettledFiles(s).Keys <= ok
    ensures var d, rest, s' := SettledFiles(s) - First(order, extra), order[extra..], Trimmed(s, order, extra, max, ok);
            && j <= |rest| && SettledFiles(s') == d - First(rest, j) && s'.b.onDisk + s'.b.pending <= max
            && (j > 0 ==> Total(d) + s.b.pending > max)
            && (j > 0 ==> Total(d - First(rest, j - 1)) + s.b.pending > Target(s, 0, max))
  {
    CountTrim(s, order, extra, ok);
    RestLists(order, SettledFiles(s), extra);
    j := BytesAfterCount(Shrink(s, order[..extra], -1, ok), order[extra..], max, ok, Trimmed(s, order, extra, max, ok));
  }

  /** The periodic pass, when removals succeed, removes the oldest settled files
      beyond the file count and, only if the rest is over the byte cap, the
      fewest next-oldest that bring it down to the low-water mark (or to the
      cap, when the writes in flight leave no more room). */
  lemma OverflowEvictsOldest(s: Inbox, max: nat, maxFiles: nat, order: seq<Name>, ok: set<Name>) returns (j: nat)
    requires Inv(s, max) && Lists(order, SettledFiles(s)) && SettledFiles(s).Keys <= ok
    ensures var extra := Surplus(|order|, maxFiles);
            var d, rest := SettledFiles(s) - First(order, extra), order[extra..];
            && j <= |rest| <= maxFiles
            && SettledFiles(EvictOverflow(s, max, maxFiles, order, ok)) == d - First(rest, j)
            && (j > 0 ==> Total(d) + s.b.pending > max)
            && (j > 0 ==> Total(d - First(rest, j - 1)) + s.b.pending > Target(s, 0, max))
    ensures var b := EvictOverflow(s, max, maxFiles, order, ok).b; b.onDisk + b.pending <= max
  {
    assert SettledFiles(Rescan(s)) == SettledFiles(s);
    j := TrimmedOldest(Rescan(s), order, Surplus(|order|, maxFiles), max, ok);
  }

  // ---- hysteresis --------------------------------------------------------

  ghost function Demand(ss: seq<Step>): nat {
    if ss == [] then 0 else (if ss[0].ReserveStep? then ss[0].size else 0) + Demand(ss[1..])
  }

  /** Every reservation of the run is admitted. */
  ghost predicate AllAdmitted(s: Inbox, ss: seq<Step>, max: nat, age: Name -> int)
    requires ValidRun(s, ss, max, age)
    decreases |ss|
  {
    ss == [] ||
    (&& (ss[0].ReserveStep? ==> ss[0].path in Next(s, ss[0], max).resv && Next(s, ss[0], max).resv[ss[0].path] == ss[0].size)
     && AllAdmitted(Next(s, ss[0], max), ss[1..], max, age))
  }

  /** A reservation that fits the running total is admitted from it alone. */
  lemma HeadroomStep(s: Inbox, st: Step, max: nat)
    requires st.ReserveStep? && s.b.known && 0 <= s.b.pending && 0 <= s.b.onDisk && s.b.onDisk + s.b.pending + st.size <= max
    ensures Next(s, st, max) == AdmitInto(s, st.path, st.size).(capped := true)
  {
  }

  /** While the demand fits under the cap, every reservation is admitted, and
      from the running total alone: no listing takes place. */
  lemma {:induction false} HeadroomNeedsNoScan(s: Inbox, ss: seq<Step>, max: nat, age: Name -> int)
    requires Inv(s, max) && ValidRun(s, ss, max, age) && s.b.known
    requires forall st :: st in ss ==> !st.EvictStep?
    requires s.b.onDisk + s.b.pending + Demand(ss) <= max
    ensures AllAdmitted(s, ss, max, age) && After(s, ss, max, age).b.scans == s.b.scans
    decreases |ss|
  {
    if ss != [] {
      assert ss[0] in ss;
      StepInv(s, ss[0], max, age);
      if ss[0].SettleStep? { SettleInv(s, ss[0].path, ss[0].written, max); }
      if ss[0].ReserveStep? { HeadroomStep(s, ss[0], max); }
      HeadroomNeedsNoScan(Next(s, ss[0], max), ss[1..], max, age);
    }
  }

  /** After an eviction trimmed to the low-water mark, the message it was for
      and the next max - lowWater bytes are admitted without a listing. */
  lemma TrimBuysHeadroom(s: Inbox, path: Name, size: nat, max: nat, order: seq<Name>, ok: set<Name>,
                         ss: seq<Step>, age: Name -> int)
    requires Inv(s, max) && path !in s.files && path !in s.resv
    requires Lists(order, SettledFiles(s)) && SettledFiles(s).Keys <= ok
    requires size + s.b.pending <= InboxLowWater(max)
    requires SettledFiles(MakeRoom(s, size, max, order, ok)) != SettledFiles(s)
    requires ValidRun(Reserve(s, path, size, max, order, ok).0, ss, max, age)
    requires forall st :: st in ss ==> !st.EvictStep?
    requires Demand(ss) <= max - InboxLowWater(max)
    ensures var s' := Reserve(s, path, size, max, order, ok).0;
            && path in s'.resv && s'.resv[path] == size
            && AllAdmitted(s', ss, max, age) && After(s', ss, max, age).b.scans == s'.b.scans
  {
    LowWaterExact(max);
    MakeRoomReaches(s, size, max, order, ok);
    MakeRoomInv(s, size, max, order, ok);
    ReserveInv(s, path, size, max, order, ok);
    MakeRoomExact(s, size, max, order, ok);
    HeadroomNeedsNoScan(Reserve(s, path, size, max, order, ok).0, ss, max, age);
  }

  lemma MakeRoomExact(s: Inbox, size: nat, max: nat, order: seq<Name>, ok: set<Name>)
    requires Inv(s, max) && SettledFiles(MakeRoom(s, size, max, order, ok)) != SettledFiles(s)
    ensures Exact(MakeRoom(s, size, max, order, ok))
  {
    var s1 := Seeded(s);
    RescanInv(s, max);
    assert SettledFiles(Rescan(s1)) == SettledFiles(s1) == SettledFiles(s);
    ShrinkRelists(s1, order, Target(s1, size, max) - size - s1.b.pending, ok, max);
  }
}
