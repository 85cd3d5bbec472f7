/**
 * The inbox byte budget: a running total that stands in for a directory scan,
 * with oldest-first eviction, as a machine of concurrent writers, settlements,
 * periodic evictions and deletions by other processes.
 */
module InboxSpec {
  import opened Prelude

  /** A file name in the inbox directory; every message gets a fresh one. */
  type Name = string

  /** The directory: every regular file with its size. */
  type Dir = map<Name, nat>

  // ---- eviction ----------------------------------------------------------

  /** inboxLowWater, as the code computes it. */
  function InboxLowWater(maxBytes: nat): nat {
    maxBytes / 100 * 90 + maxBytes % 100 * 90 / 100
  }

  /** It is floor(90 * max / 100) and at most max. Of its intermediate values
      the first never exceeds max; the second never exceeds 8910, and exceeds
      max exactly when the last two digits outweigh the rest. */
  lemma LowWaterExact(maxBytes: nat)
    ensures InboxLowWater(maxBytes) == 90 * maxBytes / 100
    ensures maxBytes / 100 * 90 <= maxBytes && InboxLowWater(maxBytes) <= maxBytes
    ensures maxBytes % 100 * 90 <= 8910
    ensures maxBytes % 100 * 90 > maxBytes <==> 89 * (maxBytes % 100) > 100 * (maxBytes / 100)
  {
  }

  /** With a cap of one byte the second intermediate value is 90. */
  lemma LowWaterOfOne()
    ensures InboxLowWater(1) == 0 && 1 % 100 * 90 > 1
  {
  }

  /** `order` lists each file of d once. */
  ghost predicate Lists(order: seq<Name>, d: Dir) {
    && (forall i :: 0 <= i < |order| ==> order[i] in d)
    && (forall n :: n in d ==> n in order)
    && (forall i, j :: 0 <= i < j < |order| ==> order[i] != order[j])
  }

  ghost predicate OldestFirst(order: seq<Name>, age: Name -> int) {
    forall i, j :: 0 <= i < j < |order| ==> age(order[i]) <= age(order[j])
  }

  /** removeOldestInbox over the listed files: what is left, and its total.
      Names outside `ok` cannot be removed and are skipped. */
  ghost function Evict(order: seq<Name>, d: Dir, total: int, limit: int, ok: set<Name>): (int, Dir) {
    if order == [] || total <= limit then (total, d)
    else if order[0] in ok && order[0] in d then
      Evict(order[1..], d - {order[0]}, total - d[order[0]], limit, ok)
    else Evict(order[1..], d, total, limit, ok)
  }

  lemma {:induction false} EvictWithin(order: seq<Name>, d: Dir, total: int, limit: int, ok: set<Name>)
    ensures var r := Evict(order, d, total, limit, ok).1; r.Keys <= d.Keys && forall n :: n in r ==> r[n] == d[n]
  {
    if order != [] && total > limit {
      if order[0] in ok && order[0] in d {
        EvictWithin(order[1..], d - {order[0]}, total - d[order[0]], limit, ok);
      } else {
        EvictWithin(order[1..], d, total, limit, ok);
      }
    }
  }

  lemma {:induction false} EvictTotal(order: seq<Name>, d: Dir, limit: int, ok: set<Name>)
    ensures var r := Evict(order, d, Total(d), limit, ok);
            r.0 == Total(r.1) <= Total(d)
  {
    if order != [] && Total(d) > limit {
      if order[0] in ok && order[0] in d {
        TotalRemove(d, order[0]);
        EvictTotal(order[1..], d - {order[0]}, limit, ok);
      } else {
        EvictTotal(order[1..], d, limit, ok);
      }
    }
  }

  ghost function First(order: seq<Name>, k: nat): set<Name>
    requires k <= |order|
  {
    set n | n in order[..k]
  }

  lemma {:induction false} ListsTail(order: seq<Name>, d: Dir)
    requires Lists(order, d) && order != []
    ensures Lists(order[1..], d - {order[0]})
  {
  }

  lemma ListsNothing(order: seq<Name>, d: Dir)
    requires Lists(order, d) && order == []
    ensures Total(d) == 0
  {
  }

  lemma FirstStep(order: seq<Name>, k: nat, d: Dir)
    requires 0 < k <= |order|
    ensures d - First(order, k) == d - {order[0]} - First(order[1..], k - 1)
  {
  }

  lemma EvictOldest(order: seq<Name>, d: Dir, limit: int)
    requires Lists(order, d) && order != [] && Total(d) > limit
    ensures var d1 := d - {order[0]};
            Lists(order[1..], d1)
            && Evict(order, d, Total(d), limit, d.Keys) == Evict(order[1..], d1, Total(d1), limit, d1.Keys)
  {
    var d1 := d - {order[0]};
    TotalRemove(d, order[0]);
    ListsTail(order, d);
    EvictAll(order[1..], d1, Total(d1), limit, d.Keys, d1.Keys);
  }

  lemma NoneFirst(order: seq<Name>, d: Dir)
    ensures d - First(order, 0) == d
  {
  }

  /** Evicting the first k files of the listing is what brings d to the limit. */
  ghost predicate Shortest(order: seq<Name>, d: Dir, limit: nat, k: nat) {
    && k <= |order| && (k > 0 ==> Total(d - First(order, k - 1)) > limit)
    && var r := Evict(order, d, Total(d), limit, d.Keys); r.1 == d - First(order, k) && r.0 <= limit
  }

  lemma ShortestNone(order: seq<Name>, d: Dir, limit: nat)
    requires Total(d) <= limit
    ensures Shortest(order, d, limit, 0)
  {
    NoneFirst(order, d);
  }

  lemma ShortestMore(order: seq<Name>, d: Dir, limit: nat, j: nat)
    requires Lists(order, d) && order != [] && Total(d) > limit && Shortest(order[1..], d - {order[0]}, limit, j)
    ensures Shortest(order, d, limit, j + 1)
  {
    EvictOldest(order, d, limit);
    FirstStep(order, j + 1, d);
    if j > 0 { FirstStep(order, j, d); } else { NoneFirst(order, d); }
  }

  /** When every removal succeeds, the files evicted are the first k of the
      listing, k the least number that brings the total to the limit. */
  lemma {:induction false} EvictShortestPrefix(order: seq<Name>, d: Dir, limit: nat) returns (k: nat)
    requires Lists(order, d)
    ensures Shortest(order, d, limit, k)
  {
    if order == [] { ListsNothing(order, d); }
    if Total(d) <= limit {
      k := 0;
      ShortestNone(order, d, limit);
    } else {
      ListsTail(order, d);
      k := EvictShortestPrefix(order[1..], d - {order[0]}, limit);
      ShortestMore(order, d, limit, k);
      k := k + 1;
    }
  }

  /** Only the removability of files that exist matters. */
  lemma {:induction false} EvictAll(order: seq<Name>, d: Dir, total: int, limit: int, ok: set<Name>, ok': set<Name>)
    requires d.Keys <= ok && d.Keys <= ok'
    ensures Evict(order, d, total, limit, ok) == Evict(order, d, total, limit, ok')
  {
    if order != [] && total > limit {
      if order[0] in d {
        EvictAll(order[1..], d - {order[0]}, total - d[order[0]], limit, ok, ok');
      } else {
        EvictAll(order[1..], d, total, limit, ok, ok');
      }
    }
  }

  // ---- the budget and its operations -------------------------------------

  /** inboxBudget; `scans` counts directory listings. */
  datatype Budget = Budget(known: bool, onDisk: int, pending: int, inflight: set<Name>, scans: nat)

  /** What the code cannot see: the directory, the size each in-flight write
      reserved, and two sums of bytes outside the running total: `leak`, left
      behind by failed writes since the last listing, and `excess`, everything
      ever left behind or admitted unchecked because a listing failed. */
  datatype Inbox = Inbox(files: Dir, b: Budget, resv: map<Name, nat>, leak: nat, excess: nat, capped: bool)

  ghost function SettledFiles(s: Inbox): Dir { Settled(s.files, s.b.inflight) }

  /** rescanLocked */
  ghost function Rescan(s: Inbox): Inbox {
    s.(b := s.b.(known := true, onDisk := Total(SettledFiles(s)), scans := s.b.scans + 1), leak := 0)
  }

  /** removeOldestInbox on the files a fresh listing returned. */
  ghost function Shrink(s: Inbox, order: seq<Name>, limit: int, ok: set<Name>): Inbox {
    var r := Evict(order, SettledFiles(s), s.b.onDisk, limit, ok);
    s.(files := map n | n in s.files && (n in s.b.inflight || n in r.1) :: s.files[n], b := s.b.(onDisk := r.0))
  }

  lemma ShrinkSettled(s: Inbox, order: seq<Name>, limit: int, ok: set<Name>)
    ensures SettledFiles(Shrink(s, order, limit, ok)) == Evict(order, SettledFiles(s), s.b.onDisk, limit, ok).1
  {
    EvictWithin(order, SettledFiles(s), s.b.onDisk, limit, ok);
  }

  ghost function AdmitInto(s: Inbox, path: Name, size: nat): Inbox {
    s.(b := s.b.(pending := s.b.pending + size, inflight := s.b.inflight + {path}), resv := s.resv[path := size])
  }

  /** A listing failed: the message is admitted unchecked. */
  ghost function AdmitUnchecked(s: Inbox, path: Name, size: nat): Inbox {
    AdmitInto(s.(b := s.b.(scans := s.b.scans + 1)), path, size).(excess := s.excess + size)
  }

  /** The level an eviction trims to. */
  ghost function Target(s: Inbox, size: nat, max: nat): nat {
    if size + s.b.pending > InboxLowWater(max) then max else InboxLowWater(max)
  }

  /** A total that is not known is seeded from a listing. */
  ghost function Seeded(s: Inbox): Inbox { if s.b.known then s else Rescan(s) }

  /** Seeds the total, and makes room if it says there is none. */
  ghost function MakeRoom(s: Inbox, size: nat, max: nat, order: seq<Name>, ok: set<Name>): Inbox {
    var s1 := Seeded(s);
    if s1.b.onDisk + s1.b.pending + size <= max then s1
    else
      var s2 := Rescan(s1);
      if s2.b.onDisk + s2.b.pending + size <= max then s2
      else Shrink(s2, order, Target(s2, size, max) - size - s2.b.pending, ok)
  }

  /** reserveInbox with listings that succeed. */
  ghost function Reserve(s: Inbox, path: Name, size: nat, max: nat, order: seq<Name>, ok: set<Name>): (Inbox, bool) {
    if size > max || size + s.b.pending > max then (s, false)
    else
      var s1 := MakeRoom(s, size, max, order, ok);
      if s1.b.onDisk + s1.b.pending + size > max then (s1, false)
      else (AdmitInto(s1, path, size).(capped := true), true)
  }

  /** reserveInbox when a listing it needs fails: the seeding one, or the one
      that an eviction would start from. */
  ghost function ReserveUnlisted(s: Inbox, path: Name, size: nat, max: nat, seedOk: bool): (Inbox, bool) {
    if size > max || size + s.b.pending > max then (s, false)
    else if !s.b.known && !seedOk then (AdmitUnchecked(s, path, size), true)
    else
      var s1 := Seeded(s);
      if s1.b.onDisk + s1.b.pending + size <= max then (AdmitInto(s1, path, size).(capped := true), true)
      else (AdmitUnchecked(s1, path, size), true)
  }

  /** reserveInbox, with either listing failing or not. */
  ghost function ReserveWith(s: Inbox, path: Name, size: nat, max: nat, seedOk: bool, listOk: bool,
                             order: seq<Name>, ok: set<Name>): (Inbox, bool) {
    if (s.b.known || seedOk) && listOk then Reserve(s, path, size, max, order, ok)
    else ReserveUnlisted(s, path, size, max, seedOk)
  }

  /** inboxWriteDone; a failed write leaves whatever it wrote. */
  ghost function WriteDone(s: Inbox, path: Name, written: bool): Inbox
    requires path in s.resv
  {
    var size := s.resv[path];
    var left := if path in s.files && !written then s.files[path] else 0;
    s.(b := s.b.(inflight := s.b.inflight - {path}, pending := Max(s.b.pending - size, 0),
                 onDisk := if written then s.b.onDisk + size else s.b.onDisk),
       resv := s.resv - {path}, leak := s.leak + left, excess := s.excess + left)
  }

  /** The two trims of evictInboxOverflow: the oldest `extra` files go whatever
      the total, which no limit below zero stops; then the rest is trimmed if
      it is over the byte cap. */
  ghost function Trimmed(s: Inbox, order: seq<Name>, extra: nat, max: nat, ok: set<Name>): Inbox
    requires extra <= |order|
  {
    var s1 := Shrink(s, order[..extra], -1, ok);
    if s1.b.onDisk + s1.b.pending <= max then s1
    else Shrink(s1, order[extra..], Target(s1, 0, max) - s1.b.pending, ok)
  }

  function Surplus(count: nat, maxFiles: nat): nat {
    if count > maxFiles then count - maxFiles else 0
  }

  /** evictInboxOverflow with a listing that succeeds. */
  ghost function EvictOverflow(s: Inbox, max: nat, maxFiles: nat, order: seq<Name>, ok: set<Name>): Inbox {
    Trimmed(Rescan(s), order, Surplus(|order|, maxFiles), max, ok)
  }
}
