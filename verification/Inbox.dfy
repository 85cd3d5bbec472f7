/**
 * `inboxBudget` with the directory it accounts for. Each operation, with its
 * loops, is the one of InboxSpec.
 */
module Inbox {
  import opened Prelude
  import opened InboxSpec

  // ---- listings ----------------------------------------------------------

  ghost predicate Unrepeated(s: seq<Name>) {
    forall i, j :: 0 <= i < j < |s| ==> s[i] != s[j]
  }

  /** s with x put where its age belongs. */
  function Insert(s: seq<Name>, x: Name, age: Name -> int): (r: seq<Name>)
    ensures forall n :: n in r <==> n in s || n == x
  {
    if s == [] then [x]
    else if age(x) < age(s[0]) then [x] + s
    else
      assert s == [s[0]] + s[1..];
      [s[0]] + Insert(s[1..], x, age)
  }

  lemma {:induction false} InsertSorted(s: seq<Name>, x: Name, age: Name -> int)
    requires OldestFirst(s, age)
    ensures OldestFirst(Insert(s, x, age), age)
  {
    if s != [] && age(x) >= age(s[0]) {
      InsertSorted(s[1..], x, age);
      var t := Insert(s[1..], x, age);
      forall i | 0 <= i < |t| ensures age(s[0]) <= age(t[i]) { assert t[i] in t; }
    }
  }

  lemma {:induction false} InsertUnrepeated(s: seq<Name>, x: Name, age: Name -> int)
    requires Unrepeated(s) && x !in s
    ensures Unrepeated(Insert(s, x, age))
  {
    if s != [] && age(x) >= age(s[0]) {
      InsertUnrepeated(s[1..], x, age);
      var t := Insert(s[1..], x, age);
      forall i | 0 <= i < |t| ensures s[0] != t[i] { assert t[i] in t; }
    }
  }

  /** sort.Slice by modification time. */
  function ByAge(s: seq<Name>, age: Name -> int): (r: seq<Name>)
    ensures forall n :: n in r <==> n in s
  {
    if s == [] then []
    else
      assert s == [s[0]] + s[1..];
      Insert(ByAge(s[1..], age), s[0], age)
  }

  lemma {:induction false} ByAgeSorts(s: seq<Name>, age: Name -> int)
    ensures OldestFirst(ByAge(s, age), age)
    ensures Unrepeated(s) ==> Unrepeated(ByAge(s, age))
  {
    if s != [] {
      ByAgeSorts(s[1..], age);
      InsertSorted(ByAge(s[1..], age), s[0], age);
      if Unrepeated(s) {
        assert s[0] !in s[1..];
        InsertUnrepeated(ByAge(s[1..], age), s[0], age);
      }
    }
  }

  lemma SortedListing(s: seq<Name>, d: Dir, age: Name -> int)
    requires Lists(s, d)
    ensures Lists(ByAge(s, age), d) && OldestFirst(ByAge(s, age), age)
  {
    ByAgeSorts(s, age);
    var r := ByAge(s, age);
    forall i | 0 <= i < |r| ensures r[i] in d { assert r[i] in r; }
  }

  /** Settled files, and those in flight that `rest` still lists. */
  ghost function Remaining(d: Dir, inflight: set<Name>, rest: seq<Name>): Dir {
    map n | n in d && (n !in inflight || n in rest) :: d[n]
  }

  lemma RemainingStep(d: Dir, inflight: set<Name>, listing: seq<Name>, i: nat)
    requires Lists(listing, d) && i < |listing|
    ensures var n, rest, rest' := listing[i], Remaining(d, inflight, listing[i..]), Remaining(d, inflight, listing[i + 1..]);
            && n in d && n !in listing[..i]
            && Total(rest') == Total(rest) - (if n in inflight then d[n] else 0)
  {
    var n := listing[i];
    assert listing[i..] == [n] + listing[i + 1..];
    var rest, rest' := Remaining(d, inflight, listing[i..]), Remaining(d, inflight, listing[i + 1..]);
    if n in inflight {
      assert n !in listing[i + 1..];
      TotalRemove(rest, n);
      assert rest' == rest - {n};
    } else {
      assert rest' == rest;
    }
  }

  lemma RemainingEnds(d: Dir, inflight: set<Name>, listing: seq<Name>)
    requires Lists(listing, d)
    ensures Remaining(d, inflight, listing[0..]) == d
    ensures Remaining(d, inflight, listing[|listing|..]) == Settled(d, inflight)
  {
  }

  ghost function Kept(s: seq<Name>, inflight: set<Name>): seq<Name> {
    if s == [] then []
    else
      var n := s[|s| - 1];
      Kept(s[..|s| - 1], inflight) + if n in inflight then [] else [n]
  }

  lemma KeptStep(s: seq<Name>, i: nat, inflight: set<Name>)
    requires i < |s|
    ensures Kept(s[..i + 1], inflight) == Kept(s[..i], inflight) + if s[i] in inflight then [] else [s[i]]
  {
    assert s[..i + 1][..i] == s[..i];
  }

  lemma {:induction false} KeptMembers(s: seq<Name>, inflight: set<Name>)
    ensures forall n :: n in Kept(s, inflight) <==> n in s && n !in inflight
    ensures Unrepeated(s) ==> Unrepeated(Kept(s, inflight))
  {
    if s != [] {
      var init := s[..|s| - 1];
      KeptMembers(init, inflight);
      assert s == init + [s[|s| - 1]];
      if Unrepeated(s) { assert s[|s| - 1] !in init; }
    }
  }

  lemma KeptLists(listing: seq<Name>, d: Dir, inflight: set<Name>)
    requires Lists(listing, d)
    ensures Lists(Kept(listing, inflight), Settled(d, inflight))
  {
    KeptMembers(listing, inflight);
    var s := Kept(listing, inflight);
    forall i | 0 <= i < |s| ensures s[i] in Settled(d, inflight) { assert s[i] in s; }
  }

  /** The directory `files` is that of `was` with only settled files missing. */
  ghost predicate OnlySettledGone(was: InboxSpec.Inbox, files: Dir) {
    && (forall n :: n in files ==> n in was.files && files[n] == was.files[n])
    && (forall n :: n in was.files && n in was.b.inflight ==> n in files)
  }

  lemma ShrinkFiles(was: InboxSpec.Inbox, files: Dir, order: seq<Name>, limit: int, ok: set<Name>)
    requires OnlySettledGone(was, files)
    requires Settled(files, was.b.inflight) == Evict(order, SettledFiles(was), was.b.onDisk, limit, ok).1
    ensures files == Shrink(was, order, limit, ok).files
  {
  }

  lemma EvictStepLemma(order: seq<Name>, i: nat, d: Dir, total: int, limit: int, ok: set<Name>)
    requires i < |order| && total > limit && order[i] in d
    ensures Evict(order[i..], d, total, limit, ok) ==
            if order[i] in ok then Evict(order[i + 1..], d - {order[i]}, total - d[order[i]], limit, ok)
            else Evict(order[i + 1..], d, total, limit, ok)
  {
  }

  lemma SettledMinus(files: Dir, inflight: set<Name>, n: Name)
    ensures Settled(files - {n}, inflight) == Settled(files, inflight) - {n}
  {
  }

  /** Files of d, none twice. */
  ghost predicate Present(order: seq<Name>, d: Dir) {
    Unrepeated(order) && forall i :: 0 <= i < |order| ==> order[i] in d
  }

  /** Eviction touches only the files it is given. */
  lemma {:induction false} EvictKeepsOthers(order: seq<Name>, d: Dir, total: int, limit: int, ok: set<Name>, n: Name)
    requires n in d && n !in order
    ensures n in Evict(order, d, total, limit, ok).1
  {
    if order != [] && total > limit {
      if order[0] in ok && order[0] in d {
        EvictKeepsOthers(order[1..], d - {order[0]}, total - d[order[0]], limit, ok, n);
      } else {
        EvictKeepsOthers(order[1..], d, total, limit, ok, n);
      }
    }
  }

  lemma RestPresent(order: seq<Name>, k: nat, d: Dir, total: int, limit: int, ok: set<Name>)
    requires Present(order, d) && k <= |order|
    ensures Present(order[..k], d) && Present(order[k..], Evict(order[..k], d, total, limit, ok).1)
  {
    forall i | 0 <= i < |order| - k ensures order[k..][i] in Evict(order[..k], d, total, limit, ok).1 {
      EvictKeepsOthers(order[..k], d, total, limit, ok, order[k..][i]);
    }
  }

  /** The loop of removeOldestInbox. */
  method EvictLoop(files: Dir, inflight: set<Name>, order: seq<Name>, onDisk: int, limit: int, ok: set<Name>)
    returns (left: Dir, total: int)
    requires Present(order, Settled(files, inflight))
    ensures (total, Settled(left, inflight)) == Evict(order, Settled(files, inflight), onDisk, limit, ok)
    ensures forall n :: n in left ==> n in files && left[n] == files[n]
    ensures forall n :: n in files && n in inflight ==> n in left
  {
    left, total := files, onDisk;
    var i := 0;
    ghost var d := Settled(files, inflight);
    while i < |order| && total > limit
      invariant i <= |order| && d == Settled(left, inflight)
      invariant forall n :: n in left ==> n in files && left[n] == files[n]
      invariant forall n :: n in files && n in inflight ==> n in left
      invariant forall j :: i <= j < |order| ==> order[j] in d
      invariant Evict(order[i..], d, total, limit, ok) == Evict(order, Settled(files, inflight), onDisk, limit, ok)
    {
      EvictStepLemma(order, i, d, total, limit, ok);
      if order[i] in ok {
        SettledMinus(left, inflight, order[i]);
        total := total - left[order[i]];
        left := left - {order[i]};
        d := d - {order[i]};
      }
      i := i + 1;
    }
  }

  /** rescanLocked's filter: the listed files not in flight, and their total. */
  method WithoutInflight(files: Dir, inflight: set<Name>, listing: seq<Name>, all: int)
    returns (settled: seq<Name>, total: int)
    requires Lists(listing, files) && all == Total(files)
    ensures Lists(settled, Settled(files, inflight)) && total == Total(Settled(files, inflight))
  {
    settled, total := [], all;
    RemainingEnds(files, inflight, listing);
    ghost var rest := files;
    for i := 0 to |listing|
      invariant settled == Kept(listing[..i], inflight)
      invariant rest == Remaining(files, inflight, listing[i..]) && total == Total(rest)
    {
      RemainingStep(files, inflight, listing, i);
      KeptStep(listing, i, inflight);
      rest := Remaining(files, inflight, listing[i + 1..]);
      if listing[i] in inflight {
        total := total - files[listing[i]];
      } else {
        settled := settled + [listing[i]];
      }
    }
    assert listing[..|listing|] == listing;
    KeptLists(listing, files, inflight);
  }

  /** The files of d not in `rest` have been listed, each once. */
  ghost predicate Listed(d: Dir, rest: Dir, listing: seq<Name>) {
    && (forall n :: n in rest ==> n in d && rest[n] == d[n] && n !in listing)
    && (forall n :: n in d ==> n in rest || n in listing)
    && Present(listing, d)
  }

  lemma ListOne(d: Dir, rest: Dir, listing: seq<Name>, n: Name)
    requires Listed(d, rest, listing) && n in rest
    ensures Listed(d, rest - {n}, listing + [n]) && Total(rest) == rest[n] + Total(rest - {n})
  {
    TotalRemove(rest, n);
  }

  /** The loop of scanInbox. */
  method ScanDir(d: Dir) returns (listing: seq<Name>, total: int)
    ensures Lists(listing, d) && total == Total(d)
  {
    listing, total := [], 0;
    var rest := d;
    while rest.Keys != {}
      invariant Listed(d, rest, listing) && total + Total(rest) == Total(d)
      decreases |rest|
    {
      var n :| n in rest.Keys;
      ListOne(d, rest, listing, n);
      listing := listing + [n];
      total := total + rest[n];
      rest := rest - {n};
    }
    assert rest == map[];
  }

  class InboxBudget {
    var files: Dir
    var known: bool
    var onDisk: int
    var pending: int
    var inflight: set<Name>
    var scans: nat
    ghost var resv: map<Name, nat>
    ghost var leak: nat
    ghost var excess: nat
    ghost var capped: bool

    ghost function State(): InboxSpec.Inbox
      reads this
    {
      InboxSpec.Inbox(files, Budget(known, onDisk, pending, inflight, scans), resv, leak, excess, capped)
    }

    constructor (files: Dir)
      ensures State() == InboxSpec.Inbox(files, Budget(false, 0, 0, {}, 0), map[], 0, 0, false)
    {
      this.files := files;
      known, onDisk, pending, inflight, scans := false, 0, 0, {}, 0;
      resv, leak, excess, capped := map[], 0, 0, false;
    }

    /** scanInbox: every file once, and the sum of their sizes. */
    method ScanInbox() returns (listing: seq<Name>, total: int)
      ensures Lists(listing, files) && total == Total(files)
    {
      listing, total := ScanDir(files);
    }

    /** rescanLocked: files in flight are left out of the listing and the total. */
    method RescanLocked() returns (settled: seq<Name>)
      modifies this
      ensures State() == Rescan(old(State())) && Lists(settled, SettledFiles(State()))
    {
      var listing, all := ScanInbox();
      var total;
      settled, total := WithoutInflight(files, inflight, listing, all);
      scans := scans + 1;
      known, onDisk := true, total;
      leak := 0;
    }

    /** removeOldestInbox over a fresh listing; names outside `ok` cannot be removed. */
    method RemoveOldest(listing: seq<Name>, limit: int, age: Name -> int, ok: set<Name>)
      returns (ghost order: seq<Name>)
      requires Lists(listing, SettledFiles(State()))
      modifies this`files, this`onDisk
      ensures State() == Shrink(old(State()), order, limit, ok)
      ensures Lists(order, SettledFiles(old(State()))) && OldestFirst(order, age)
    {
      SortedListing(listing, SettledFiles(State()), age);
      order := ByAge(listing, age);
      EvictSome(ByAge(listing, age), limit, ok);
    }

    /** Removes the given files in order until the total is at the limit. */
    method EvictSome(order: seq<Name>, limit: int, ok: set<Name>)
      requires Present(order, SettledFiles(State()))
      modifies this`files, this`onDisk
      ensures State() == Shrink(old(State()), order, limit, ok)
    {
      ghost var was := State();
      var left, total := EvictLoop(files, inflight, order, onDisk, limit, ok);
      files, onDisk := left, total;
      ShrinkFiles(was, files, order, limit, ok);
    }

    method AdmitLocked(path: Name, size: nat)
      modifies this`pending, this`inflight, this`resv
      ensures State() == AdmitInto(old(State()), path, size)
    {
      pending := pending + size;
      inflight := inflight + {path};
      resv := resv[path := size];
    }

    /** The eviction of reserveInbox, after the running total said there is no room. */
    method EvictFor(size: nat, max: nat, age: Name -> int, ok: set<Name>) returns (ghost order: seq<Name>)
      modifies this
      ensures var s := Rescan(old(State()));
              State() == if s.b.onDisk + s.b.pending + size <= max then s
                         else Shrink(s, order, Target(s, size, max) - size - s.b.pending, ok)
      ensures files == old(files) || (Lists(order, SettledFiles(old(State()))) && OldestFirst(order, age))
    {
      order := [];
      var listing := RescanLocked();
      assert SettledFiles(State()) == SettledFiles(old(State()));
      if onDisk + pending + size > max {
        var target := InboxLowWater(max);
        if size + pending > target { target := max; }
        order := RemoveOldest(listing, target - size - pending, age, ok);
      }
    }

    /** Seeds the running total if it is not known. */
    method Seed()
      modifies this
      ensures State() == Seeded(old(State())) && files == old(files) && inflight == old(inflight)
    {
      if !known {
        var seeded := RescanLocked();
      }
    }

    /** Makes room for a message, if the running total says there is none. */
    method MakeRoomFor(size: nat, max: nat, age: Name -> int, ok: set<Name>) returns (ghost order: seq<Name>)
      modifies this
      ensures State() == MakeRoom(old(State()), size, max, order, ok)
      ensures files == old(files) || (Lists(order, SettledFiles(old(State()))) && OldestFirst(order, age))
    {
      order := [];
      Seed();
      if onDisk + pending + size > max {
        order := EvictFor(size, max, age, ok);
      }
    }

    /** reserveInbox when the directory can be listed. */
    method ReserveListed(path: Name, size: nat, max: nat, age: Name -> int, ok: set<Name>)
      returns (admitted: bool, ghost order: seq<Name>)
      requires size + pending <= max && size <= max
      modifies this
      ensures (State(), admitted) == Reserve(old(State()), path, size, max, order, ok)
      ensures files == old(files) || (Lists(order, SettledFiles(old(State()))) && OldestFirst(order, age))
    {
      order := MakeRoomFor(size, max, age, ok);
      if onDisk + pending + size > max { return false, order; }
      capped := true;
      AdmitLocked(path, size);
      return true, order;
    }

    /** A message admitted because a listing failed. */
    method AdmitAnyway(path: Name, size: nat)
      modifies this
      ensures State() == AdmitUnchecked(old(State()), path, size)
    {
      scans := scans + 1;
      excess := excess + size;
      AdmitLocked(path, size);
    }

    /** reserveInbox when a listing it needs may fail. */
    method ReserveUnlistable(path: Name, size: nat, max: nat, seedOk: bool)
      requires size + pending <= max && size <= max
      modifies this
      ensures (State(), true) == ReserveUnlisted(old(State()), path, size, max, seedOk) && files == old(files)
    {
      if !known && !seedOk {
        AdmitAnyway(path, size);
        return;
      }
      Seed();
      if onDisk + pending + size > max {
        AdmitAnyway(path, size);
        return;
      }
      capped := true;
      AdmitLocked(path, size);
    }

    /** reserveInbox: `seedOk` and `listOk` are whether its two listings succeed,
        `ok` the files that can be removed. Files go, if any, in the order `order`. */
    method ReserveInbox(path: Name, size: nat, max: nat, seedOk: bool, listOk: bool, age: Name -> int, ok: set<Name>)
      returns (admitted: bool, ghost order: seq<Name>)
      modifies this
      ensures (State(), admitted) == ReserveWith(old(State()), path, size, max, seedOk, listOk, order, ok)
      ensures files == old(files) || (Lists(order, SettledFiles(old(State()))) && OldestFirst(order, age))
    {
      order := [];
      if size > max { return false, order; }
      if size + pending > max { return false, order; }
      if (known || seedOk) && listOk {
        admitted, order := ReserveListed(path, size, max, age, ok);
      } else {
        ReserveUnlistable(path, size, max, seedOk);
        admitted := true;
      }
    }

    /** inboxWriteDone */
    method InboxWriteDone(path: Name, size: nat, written: bool)
      requires path in resv && resv[path] == size
      modifies this
      ensures State() == WriteDone(old(State()), path, written)
    {
      inflight := inflight - {path};
      pending := pending - size;
      if pending < 0 { pending := 0; }
      if written { onDisk := onDisk + size; }
      if path in files && !written { leak, excess := leak + files[path], excess + files[path]; }
      resv := resv - {path};
    }

    /** The two trims of evictInboxOverflow: by count, then by bytes. */
    method EvictBoth(sorted: seq<Name>, extra: nat, max: nat, ok: set<Name>)
      requires Present(sorted, SettledFiles(State())) && extra <= |sorted|
      modifies this`files, this`onDisk
      ensures State() == Trimmed(old(State()), sorted, extra, max, ok)
    {
      RestPresent(sorted, extra, SettledFiles(State()), onDisk, -1, ok);
      ShrinkSettled(State(), sorted[..extra], -1, ok);
      EvictSome(sorted[..extra], -1, ok);
      if onDisk + pending > max {
        var target := InboxLowWater(max);
        if pending > target { target := max; }
        EvictSome(sorted[extra..], target - pending, ok);
      }
    }

    /** evictInboxOverflow with a directory that can be listed. */
    method EvictInboxOverflow(maxFiles: nat, max: nat, age: Name -> int, ok: set<Name>)
      returns (ghost order: seq<Name>)
      modifies this
      ensures State() == EvictOverflow(old(State()), max, maxFiles, order, ok)
      ensures Lists(order, SettledFiles(old(State()))) && OldestFirst(order, age)
    {
      var listing := RescanLocked();
      assert SettledFiles(State()) == SettledFiles(old(State()));
      SortedListing(listing, SettledFiles(State()), age);
      var sorted := ByAge(listing, age);
      order := sorted;
      EvictBoth(sorted, Surplus(|sorted|, maxFiles), max, ok);
    }
  }
}
