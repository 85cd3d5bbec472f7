/**
 * Exactly when the inbox can go over its cap without anything further going
 * wrong: a condition on the state, and what a failed write or a failed listing
 * does to it.
 */
module InboxCap {
  import opened Prelude
  import opened InboxSpec
  import opened InboxRuns
  import Listing = Inbox

  /** Settled bytes and reservations fit the cap, and a known total is not too low. */
  ghost predicate Safe(s: Inbox, max: nat) {
    && Total(SettledFiles(s)) + s.b.pending <= max
    && (s.b.known ==> Total(SettledFiles(s)) <= s.b.onDisk)
  }

  /** A step in which nothing goes wrong: listings succeed, and a write that
      fails leaves nothing behind. */
  ghost predicate Clean(s: Inbox, st: Step) {
    match st
    case ReserveStep(_, _, seedOk, listOk, _, _) => seedOk && listOk
    case SettleStep(path, written) => written || path !in s.files || s.files[path] == 0
    case _ => true
  }

  ghost predicate CleanRun(s: Inbox, ss: seq<Step>, max: nat, age: Name -> int)
    requires ValidRun(s, ss, max, age)
    decreases |ss|
  {
    ss == [] || (Clean(s, ss[0]) && CleanRun(Next(s, ss[0], max), ss[1..], max, age))
  }

  /** Whatever happens, as long as nothing goes wrong, the disk stays within the cap. */
  ghost predicate WithinCap(s: Inbox, max: nat, age: Name -> int) {
    forall ss :: ValidRun(s, ss, max, age) && CleanRun(s, ss, max, age) ==> Total(After(s, ss, max, age).files) <= max
  }

  // ---- safe states stay safe ---------------------------------------------

  lemma ExactIsSafe(s: Inbox, s': Inbox, max: nat)
    requires Safe(s, max) && Exact(s') && s'.b.pending == s.b.pending && s'.b.onDisk <= Total(SettledFiles(s))
    ensures Safe(s', max)
  {
  }

  lemma MakeRoomSafe(s: Inbox, size: nat, max: nat, order: seq<Name>, ok: set<Name>)
    requires Inv(s, max) && Safe(s, max)
    ensures Safe(MakeRoom(s, size, max, order, ok), max)
  {
    SeededSafe(s, max);
    var s1 := Seeded(s);
    var limit := Target(s1, size, max) - size - s1.b.pending;
    RelistSafe(s1, limit, max, order, ok);
    MakeRoomIs(s, size, max, order, ok);
  }

  lemma SeededSafe(s: Inbox, max: nat)
    requires Inv(s, max) && Safe(s, max)
    ensures Inv(Seeded(s), max) && Safe(Seeded(s), max)
  {
    SeededInv(s, max);
    RescanExact(s);
  }

  lemma MakeRoomIs(s: Inbox, size: nat, max: nat, order: seq<Name>, ok: set<Name>)
    ensures var s1 := Seeded(s);
            var s', limit := MakeRoom(s, size, max, order, ok), Target(s1, size, max) - size - s1.b.pending;
            s' == s1 || s' == Rescan(s1) || s' == Shrink(Rescan(s1), order, limit, ok)
  {
  }

  lemma RelistSafe(s: Inbox, limit: int, max: nat, order: seq<Name>, ok: set<Name>)
    requires Inv(s, max) && Safe(s, max)
    ensures Safe(Rescan(s), max) && Safe(Shrink(Rescan(s), order, limit, ok), max)
  {
    RescanExact(s);
    RescanInv(s, max);
    ShrinkInv(Rescan(s), order, limit, ok, max);
    ExactIsSafe(s, Shrink(Rescan(s), order, limit, ok), max);
  }

  lemma ReserveSafe(s: Inbox, path: Name, size: nat, max: nat, order: seq<Name>, ok: set<Name>)
    requires Inv(s, max) && Safe(s, max) && path !in s.files && path !in s.resv
    ensures Safe(Reserve(s, path, size, max, order, ok).0, max)
  {
    MakeRoomSafe(s, size, max, order, ok);
    MakeRoomInv(s, size, max, order, ok);
    AdmitInv(MakeRoom(s, size, max, order, ok), path, size, max);
  }

  /** The bytes a write leaves when it settles: all of its reservation, or what a failed one wrote. */
  ghost function Leaves(s: Inbox, path: Name): nat { if path in s.files then s.files[path] else 0 }

  lemma SettledAfter(s: Inbox, path: Name, written: bool, max: nat)
    requires Inv(s, max) && path in s.resv
    ensures Total(SettledFiles(WriteDone(s, path, written))) == Total(SettledFiles(s)) + Leaves(s, path)
    ensures Leaves(s, path) <= s.resv[path] && WriteDone(s, path, written).b.pending == s.b.pending - s.resv[path]
  {
    var s' := WriteDone(s, path, written);
    TotalRemove(s.resv, path);
    if path in s.files {
      assert path in Unsettled(s.files, s.b.inflight);
      TotalAdd(SettledFiles(s), path, s.files[path]);
      assert SettledFiles(s') == SettledFiles(s)[path := s.files[path]];
    } else {
      assert SettledFiles(s') == SettledFiles(s);
    }
  }

  lemma EvictSafe(s: Inbox, max: nat, maxFiles: nat, order: seq<Name>, ok: set<Name>)
    requires Inv(s, max) && Safe(s, max)
    ensures Safe(EvictOverflow(s, max, maxFiles, order, ok), max)
  {
    var extra := Surplus(|order|, maxFiles);
    RescanExact(s);
    RescanInv(s, max);
    ShrinkInv(Rescan(s), order[..extra], -1, ok, max);
    var s1 := Shrink(Rescan(s), order[..extra], -1, ok);
    ExactIsSafe(s, s1, max);
    ShrinkInv(s1, order[extra..], Target(s1, 0, max) - s1.b.pending, ok, max);
    ExactIsSafe(s1, Shrink(s1, order[extra..], Target(s1, 0, max) - s1.b.pending, ok), max);
  }

  lemma StepSafe(s: Inbox, st: Step, max: nat, age: Name -> int)
    requires Inv(s, max) && Safe(s, max) && Enabled(s, st, age) && Clean(s, st)
    ensures Safe(Next(s, st, max), max)
  {
    match st
    case ReserveStep(path, size, _, _, order, ok) => ReserveSafe(s, path, size, max, order, ok);
    case WriteStep(path, size) => assert SettledFiles(Next(s, st, max)) == SettledFiles(s);
    case SettleStep(path, written) => SettledAfter(s, path, written, max);
    case EvictStep(maxFiles, listOk, order, ok) =>
      if listOk { EvictSafe(s, max, maxFiles, order, ok); }
      else { assert SettledFiles(Next(s, st, max)) == SettledFiles(s); }
    case ForeignStep(names) => TotalWithin(SettledFiles(Next(s, st, max)), SettledFiles(s));
  }

  lemma SafeFits(s: Inbox, max: nat)
    requires Inv(s, max) && Safe(s, max)
    ensures Total(s.files) <= max
  {
    TotalSplit(s.files, s.b.inflight);
    TotalWithin(Unsettled(s.files, s.b.inflight), s.resv);
  }

  lemma {:induction false} RunSafe(s: Inbox, ss: seq<Step>, max: nat, age: Name -> int)
    requires Inv(s, max) && Safe(s, max) && ValidRun(s, ss, max, age) && CleanRun(s, ss, max, age)
    ensures Total(After(s, ss, max, age).files) <= max
    decreases |ss|
  {
    if ss == [] {
      SafeFits(s, max);
    } else {
      StepSafe(s, ss[0], max, age);
      StepInv(s, ss[0], max, age);
      RunSafe(Next(s, ss[0], max), ss[1..], max, age);
    }
  }

  // ---- an unsafe state can go over ---------------------------------------

  /** The run st, then rest. */
  lemma CleanCons(s: Inbox, st: Step, rest: seq<Step>, max: nat, age: Name -> int)
    requires Enabled(s, st, age) && Clean(s, st)
    requires ValidRun(Next(s, st, max), rest, max, age) && CleanRun(Next(s, st, max), rest, max, age)
    ensures ValidRun(s, [st] + rest, max, age) && CleanRun(s, [st] + rest, max, age)
    ensures After(s, [st] + rest, max, age) == After(Next(s, st, max), rest, max, age)
  {
    assert ([st] + rest)[1..] == rest;
  }

  /** The directory once every file of `todo` is written to the end. */
  ghost function Filled(d: Dir, resv: map<Name, nat>, todo: set<Name>): Dir
    requires todo <= resv.Keys
  {
    map n | n in d.Keys + todo :: if n in todo then resv[n] else d[n]
  }

  lemma FilledOne(d: Dir, resv: map<Name, nat>, todo: set<Name>, n: Name)
    requires todo <= resv.Keys && n in todo
    ensures Filled(d[n := resv[n]], resv, todo - {n}) == Filled(d, resv, todo)
  {
  }

  lemma FilledNone(d: Dir, resv: map<Name, nat>)
    ensures Filled(d, resv, {}) == d
  {
  }

  lemma {:induction false} WriteAll(s: Inbox, todo: set<Name>, max: nat, age: Name -> int) returns (ss: seq<Step>)
    requires todo <= s.resv.Keys
    ensures ValidRun(s, ss, max, age) && CleanRun(s, ss, max, age)
    ensures After(s, ss, max, age) == s.(files := Filled(s.files, s.resv, todo))
    decreases |todo|
  {
    ss := [];
    if todo == {} {
      FilledNone(s.files, s.resv);
    } else {
      var n :| n in todo;
      var st := WriteStep(n, s.resv[n]);
      ss := WriteAll(Next(s, st, max), todo - {n}, max, age);
      CleanCons(s, st, ss, max, age);
      ss := [st] + ss;
      FilledOne(s.files, s.resv, todo, n);
    }
  }

  /** Every write in flight can reach the size it reserved. */
  lemma Fill(s: Inbox, max: nat, age: Name -> int) returns (ss: seq<Step>)
    requires Reservations(s)
    ensures ValidRun(s, ss, max, age) && CleanRun(s, ss, max, age)
    ensures Total(After(s, ss, max, age).files) == Total(SettledFiles(s)) + s.b.pending
  {
    ss := WriteAll(s, s.resv.Keys, max, age);
    var d := Filled(s.files, s.resv, s.resv.Keys);
    TotalSplit(d, s.b.inflight);
    FilledParts(s.files, s.resv);
  }

  lemma FilledParts(d: Dir, resv: map<Name, nat>)
    ensures var d' := Filled(d, resv, resv.Keys);
            Settled(d', resv.Keys) == Settled(d, resv.Keys) && Unsettled(d', resv.Keys) == resv
  {
  }

  lemma {:induction false} Longest(names: set<Name>) returns (k: nat)
    ensures forall n :: n in names ==> |n| <= k
    decreases |names|
  {
    k := 0;
    if names != {} {
      var n :| n in names;
      k := Longest(names - {n});
      k := Max(k, |n|);
    }
  }

  lemma FreshName(names: set<Name>) returns (n: Name)
    ensures n !in names
  {
    var k := Longest(names);
    n := seq(k + 1, _ => 'x');
  }

  lemma {:induction false} SomeListing(d: Dir) returns (order: seq<Name>)
    ensures Lists(order, d)
    decreases |d|
  {
    order := [];
    if d != map[] {
      var n :| n in d;
      var rest := SomeListing(d - {n});
      order := [n] + rest;
      forall i | 0 <= i < |order| ensures order[i] in d && (i > 0 ==> order[i] != n) {
        if i > 0 { assert order[i] == rest[i - 1] && rest[i - 1] in d - {n}; }
      }
    }
  }

  /** A total that is too low lets in a message that takes the disk over the cap. */
  lemma LowTotalExceeds(s: Inbox, max: nat, age: Name -> int) returns (ss: seq<Step>)
    requires Inv(s, max) && s.b.known && s.b.onDisk < Total(SettledFiles(s)) && Total(SettledFiles(s)) + s.b.pending <= max
    ensures ValidRun(s, ss, max, age) && CleanRun(s, ss, max, age) && Total(After(s, ss, max, age).files) > max
  {
    var path := FreshName(s.files.Keys + s.resv.Keys);
    var listing := SomeListing(SettledFiles(s));
    Listing.SortedListing(listing, SettledFiles(s), age);
    var st := ReserveStep(path, max - s.b.onDisk - s.b.pending, true, true, Listing.ByAge(listing, age), {});
    HeadroomStep(s, st, max);
    AdmitInv(s, path, st.size, max);
    var s1 := AdmitInto(s, path, st.size).(capped := true);
    assert SettledFiles(s1) == SettledFiles(AdmitInto(s, path, st.size));
    ss := Fill(s1, max, age);
    CleanCons(s, st, ss, max, age);
    ss := [st] + ss;
  }

  /** From any state the budget can be in, the disk stays within the cap in all
      that follows without a failure exactly if the state is safe. */
  lemma WithinCapIffSafe(s: Inbox, max: nat, age: Name -> int)
    requires Inv(s, max)
    ensures WithinCap(s, max, age) <==> Safe(s, max)
  {
    if Safe(s, max) {
      forall ss | ValidRun(s, ss, max, age) && CleanRun(s, ss, max, age) ensures Total(After(s, ss, max, age).files) <= max {
        RunSafe(s, ss, max, age);
      }
    } else if Total(SettledFiles(s)) + s.b.pending > max {
      var ss := Fill(s, max, age);
      assert !WithinCap(s, max, age);
    } else {
      var ss := LowTotalExceeds(s, max, age);
      assert !WithinCap(s, max, age);
    }
  }

  /** In particular after any history of a service, with whatever failures. */
  lemma ReachableWithinCapIff(s: Inbox, ss: seq<Step>, max: nat, age: Name -> int)
    requires Initial(s) && ValidRun(s, ss, max, age)
    ensures WithinCap(After(s, ss, max, age), max, age) <==> Safe(After(s, ss, max, age), max)
  {
    InitialInv(s, max);
    RunInv(s, ss, max, age);
    WithinCapIffSafe(After(s, ss, max, age), max, age);
  }

  // ---- what going wrong costs --------------------------------------------

  /** A failed write lets the inbox go over its cap, later and without another
      failure, exactly if the bytes it left exceed what the running total was
      over the truth. */
  lemma FailedWriteExceedsIff(s: Inbox, path: Name, max: nat, age: Name -> int)
    requires Inv(s, max) && Safe(s, max) && path in s.resv
    ensures !WithinCap(WriteDone(s, path, false), max, age)
       <==> s.b.known && Leaves(s, path) > s.b.onDisk - Total(SettledFiles(s))
  {
    SettledAfter(s, path, false, max);
    FailedWriteInv(s, path, max);
    WithinCapIffSafe(WriteDone(s, path, false), max, age);
  }

  lemma FailedWriteInv(s: Inbox, path: Name, max: nat)
    requires Inv(s, max) && path in s.resv
    ensures Inv(WriteDone(s, path, false), max)
  {
    SettleInv(s, path, false, max);
  }

  /** A message admitted because a listing failed does so exactly if it does not
      fit next to what is really there. */
  lemma UncheckedExceedsIff(s: Inbox, path: Name, size: nat, max: nat, age: Name -> int)
    requires Inv(s, max) && Safe(s, max) && path !in s.files && path !in s.resv && size + s.b.pending <= max
    ensures !WithinCap(AdmitUnchecked(s, path, size), max, age)
       <==> Total(SettledFiles(s)) + s.b.pending + size > max
  {
    AdmitInv(s, path, size, max);
    AdmitUncheckedInv(s, path, size, max);
    assert SettledFiles(AdmitUnchecked(s, path, size)) == SettledFiles(AdmitInto(s, path, size));
    WithinCapIffSafe(AdmitUnchecked(s, path, size), max, age);
  }

  /** The first reservation that is checked makes an inbox safe, whatever was on disk. */
  lemma CheckedReservationIsSafe(s: Inbox, path: Name, size: nat, max: nat, order: seq<Name>, ok: set<Name>)
    requires Inv(s, max) && !s.b.known && path !in s.files && path !in s.resv
    requires Reserve(s, path, size, max, order, ok).1
    ensures Safe(Reserve(s, path, size, max, order, ok).0, max)
  {
    var s1 := Seeded(s);
    RescanExact(s);
    RescanExact(s1);
    SeededInv(s, max);
    RescanInv(s1, max);
    ShrinkInv(Rescan(s1), order, Target(s1, size, max) - size - s1.b.pending, ok, max);
    MakeRoomInv(s, size, max, order, ok);
    AdmitInv(MakeRoom(s, size, max, order, ok), path, size, max);
  }
}
