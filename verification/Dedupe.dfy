/**
 * The dedupe cache as it is stored: a map of entries and a slice consumed from
 * the front and compacted in place. Each operation is the one of DedupeSpec.
 *
 * An entry is known by its identity; `cells` is what each entry ever made holds.
 */
module Dedupe {
  import opened Prelude
  import opened DedupeSpec

  datatype Cell = Cell(done: bool, ack: Ack, expires: int)

  datatype Slot = Slot(key: Key, entry: int)

  type Cells = map<int, Cell>

  /** The fields of a cache that its operations change. */
  datatype Store = Store(entries: map<Key, int>, queue: seq<Option<Slot>>, cells: Cells)

  ghost predicate SlotOk(s: Option<Slot>, entries: map<Key, int>, cells: Cells, bound: int) {
    && s.Some? && s.value.key in entries && entries[s.value.key] == s.value.entry
    && s.value.entry in cells && cells[s.value.entry].done && cells[s.value.entry].expires <= bound
  }

  ghost predicate InOrder(s: Option<Slot>, t: Option<Slot>, cells: Cells) {
    && s.Some? && t.Some? && s.value.key != t.value.key && s.value.entry in cells && t.value.entry in cells
    && cells[s.value.entry].expires <= cells[t.value.entry].expires
  }

  /** The unconsumed part of the slice: stored entries, each key once, in expiry order. */
  ghost predicate QueueOk(q: seq<Option<Slot>>, entries: map<Key, int>, cells: Cells, bound: int) {
    && (forall i :: 0 <= i < |q| ==> SlotOk(q[i], entries, cells, bound))
    && (forall i, j :: 0 <= i < j < |q| ==> InOrder(q[i], q[j], cells))
  }

  ghost predicate Queued(q: seq<Option<Slot>>, k: Key) {
    exists i :: 0 <= i < |q| && q[i].Some? && q[i].value.key == k
  }

  /** An entry is done exactly when it is queued, and belongs to one key. */
  ghost predicate EntriesOk(q: seq<Option<Slot>>, entries: map<Key, int>, cells: Cells) {
    && (forall k :: k in entries ==> entries[k] in cells && (cells[entries[k]].done <==> Queued(q, k)))
    && (forall k, l :: k in entries && l in entries && entries[k] == entries[l] ==> k == l)
  }

  ghost function Records(q: seq<Option<Slot>>, cells: Cells): (live: seq<Record<int>>)
    requires forall i :: 0 <= i < |q| ==> q[i].Some? && q[i].value.entry in cells
    ensures |live| == |q|
  {
    seq(|q|, i requires 0 <= i < |q| => RecordIn(q[i].value, cells))
  }

  ghost function RecordIn(s: Slot, cells: Cells): Record<int>
    requires s.entry in cells
  {
    Record(s.key, s.entry, cells[s.entry].ack, cells[s.entry].expires)
  }

  ghost function InFlight(entries: map<Key, int>, cells: Cells): map<Key, int> {
    map k | k in entries && entries[k] in cells && !cells[entries[k]].done :: entries[k]
  }

  ghost predicate StoreOk(s: Store, bound: int) {
    QueueOk(s.queue, s.entries, s.cells, bound) && EntriesOk(s.queue, s.entries, s.cells)
  }

  /** The memory a store stands for. */
  ghost function Abs(s: Store, bound: int): Memory<int>
    requires StoreOk(s, bound)
  {
    assert forall i :: 0 <= i < |s.queue| ==> SlotOk(s.queue[i], s.entries, s.cells, bound);
    Memory(InFlight(s.entries, s.cells), Records(s.queue, s.cells))
  }

  // ---- what each change of the store means -------------------------------

  lemma LaterBound(s: Store, bound: int, later: int)
    requires StoreOk(s, bound) && bound <= later
    ensures StoreOk(s, later) && Abs(s, later) == Abs(s, bound)
  {
  }

  ghost function Popped(s: Store): Store
    requires |s.queue| > 0 && s.queue[0].Some?
  {
    Store(s.entries - {s.queue[0].value.key}, s.queue[1..], s.cells)
  }

  lemma PopEntries(s: Store, bound: int)
    requires StoreOk(s, bound) && |s.queue| > 0 && s.queue[0].Some?
    ensures EntriesOk(Popped(s).queue, Popped(s).entries, s.cells)
  {
  }

  /** Dropping the front slot and its key forgets the oldest record, no more. */
  lemma PopMeans(s: Store, bound: int)
    requires StoreOk(s, bound) && |s.queue| > 0
    ensures s.queue[0].Some? && StoreOk(Popped(s), bound)
    ensures Abs(Popped(s), bound) == Memory(Abs(s, bound).flying, Abs(s, bound).live[1..])
  {
    var q, rest := s.queue, s.entries - {s.queue[0].value.key};
    assert SlotOk(q[0], s.entries, s.cells, bound);
    forall i | 0 <= i < |q| - 1 ensures SlotOk(q[1..][i], rest, s.cells, bound) {
      assert SlotOk(q[i + 1], s.entries, s.cells, bound) && InOrder(q[0], q[i + 1], s.cells);
    }
    forall i, j | 0 <= i < j < |q| - 1 ensures InOrder(q[1..][i], q[1..][j], s.cells) {
      assert InOrder(q[i + 1], q[j + 1], s.cells);
    }
    PopEntries(s, bound);
  }

  /** A key has an entry exactly when it is in flight or remembered. */
  lemma EntryKnown(s: Store, bound: int, key: Key)
    requires StoreOk(s, bound)
    ensures key in s.entries <==> key in Abs(s, bound).flying || Remembers(Abs(s, bound).live, key)
    ensures key in Abs(s, bound).flying ==> !Remembers(Abs(s, bound).live, key)
  {
    var q, live := s.queue, Abs(s, bound).live;
    if key in s.entries && s.cells[s.entries[key]].done {
      var i :| 0 <= i < |q| && q[i].Some? && q[i].value.key == key;
      assert live[i].key == key;
    }
    if Remembers(live, key) {
      var i :| 0 <= i < |live| && live[i].key == key;
      assert SlotOk(q[i], s.entries, s.cells, bound);
    }
  }

  lemma GrantMeans(s: Store, bound: int, key: Key, entry: int)
    requires StoreOk(s, bound) && key !in s.entries && entry !in s.cells
    ensures var s' := Store(s.entries[key := entry], s.queue, s.cells[entry := Cell(false, [], 0)]);
            StoreOk(s', bound)
            && Abs(s', bound) == Memory(Abs(s, bound).flying[key := entry], Abs(s, bound).live)
  {
    var s' := Store(s.entries[key := entry], s.queue, s.cells[entry := Cell(false, [], 0)]);
    var q := s.queue;
    forall i | 0 <= i < |q| ensures SlotOk(q[i], s'.entries, s'.cells, bound) {
      assert SlotOk(q[i], s.entries, s.cells, bound);
    }
    forall i, j | 0 <= i < j < |q| ensures InOrder(q[i], q[j], s'.cells) { assert InOrder(q[i], q[j], s.cells); }
    EntryKnown(s, bound, key);
    forall i | 0 <= i < |q| ensures q[i].value.key != key { assert SlotOk(q[i], s.entries, s.cells, bound); }
    forall k | k in s.entries ensures s.entries[k] in s.cells && s.entries[k] != entry {}
    assert Abs(s', bound).flying == Abs(s, bound).flying[key := entry];
    assert Abs(s', bound).live == Abs(s, bound).live;
  }

  lemma FailMeans(s: Store, bound: int, key: Key, ack: Ack, expires: int)
    requires StoreOk(s, bound) && key in Abs(s, bound).flying
    ensures var s' := Store(s.entries - {key}, s.queue, s.cells[s.entries[key] := Cell(true, ack, expires)]);
            StoreOk(s', bound)
            && Abs(s', bound) == Memory(Abs(s, bound).flying - {key}, Abs(s, bound).live)
  {
    var e := s.entries[key];
    var s' := Store(s.entries - {key}, s.queue, s.cells[e := Cell(true, ack, expires)]);
    var q := s.queue;
    forall i | 0 <= i < |q| ensures SlotOk(q[i], s'.entries, s'.cells, bound) && q[i].value.entry != e {
      assert SlotOk(q[i], s.entries, s.cells, bound);
    }
    forall i, j | 0 <= i < j < |q| ensures InOrder(q[i], q[j], s'.cells) { assert InOrder(q[i], q[j], s.cells); }
    forall k | k in s'.entries ensures s'.entries[k] != e {}
  }

  ghost function KeptStore(s: Store, key: Key, ack: Ack, expires: int): Store
    requires key in s.entries
  {
    var e := s.entries[key];
    Store(s.entries, s.queue + [Some(Slot(key, e))], s.cells[e := Cell(true, ack, expires)])
  }

  lemma KeepQueue(s: Store, bound: int, key: Key, ack: Ack, expires: int)
    requires StoreOk(s, bound) && key in Abs(s, bound).flying && bound <= expires
    ensures var s' := KeptStore(s, key, ack, expires); QueueOk(s'.queue, s'.entries, s'.cells, expires)
    ensures forall i :: 0 <= i < |s.queue| ==> s.queue[i].Some? && s.queue[i].value.entry != s.entries[key]
  {
  }

  /** Marking the entry done and appending its slot remembers the delivery last. */
  lemma KeepMeans(s: Store, bound: int, key: Key, ack: Ack, expires: int)
    requires StoreOk(s, bound) && key in Abs(s, bound).flying && bound <= expires
    ensures var s' := KeptStore(s, key, ack, expires);
            StoreOk(s', expires)
            && Abs(s', expires) == Memory(Abs(s, bound).flying - {key},
                                          Abs(s, bound).live + [Record(key, s.entries[key], ack, expires)])
  {
    var s', q := KeptStore(s, key, ack, expires), s.queue;
    KeepQueue(s, bound, key, ack, expires);
    forall k | k in s.entries ensures s'.cells[s.entries[k]].done <==> Queued(s'.queue, k) {
      if k == key { assert s'.queue[|q|].value.key == k; }
      if Queued(q, k) {
        var i :| 0 <= i < |q| && q[i].Some? && q[i].value.key == k;
        assert s'.queue[i] == q[i];
      }
    }
    var m, m' := Abs(s, bound), Abs(s', expires);
    forall k | k in s.entries ensures k in m'.flying <==> k in m.flying && k != key {}
    assert m'.flying == m.flying - {key};
    assert m'.live == m.live + [Record(key, s.entries[key], ack, expires)];
  }

  lemma TrimOne(live: seq<Record<int>>, max: nat)
    requires |live| > max
    ensures Trim(live[1..], max) == Trim(live, max)
  {
  }

  // ---- the cache ---------------------------------------------------------

  class DeliveryDedupe {
    const window: nat
    const max: nat
    var entries: map<Key, int>
    /** Stored entries, oldest first, from `head` on; consumed slots are cleared. */
    var order: seq<Option<Slot>>
    var head: nat
    var cells: Cells
    var nextEntry: int
    /** The latest time seen; the clock does not run backwards. */
    ghost var clock: int

    ghost predicate Valid()
      reads this
    {
      && head <= |order| && (head <= 64 || 2 * head <= |order|)
      && (forall e :: e in cells ==> e < nextEntry)
      && StoreOk(Contents(), clock + window)
    }

    ghost function Contents(): Store
      reads this
      requires head <= |order|
    {
      Store(entries, order[head..], cells)
    }

    /** What the cache remembers. */
    ghost function Mem(): Memory<int>
      reads this
      requires Valid()
    {
      Abs(Contents(), clock + window)
    }

    /** Valid, and with no more than `max` deliveries remembered: what every
        operation starts from and leaves. */
    ghost predicate AtRest()
      reads this
    {
      Valid() && |order| - head <= max
    }

    constructor (window: nat, max: nat, now: int)
      ensures AtRest() && Mem() == Memory(map[], []) && clock == now
      ensures this.window == window && this.max == max
    {
      this.window := window;
      this.max := max;
      entries, order, head, cells, nextEntry := map[], [], 0, map[], 0;
      clock := now;
    }

    /** At rest the slice holds at most max(2*max, max+64) slots. */
    lemma SliceBound()
      requires AtRest()
      ensures |Mem().live| <= max && |order| <= Max(2 * max, max + 64)
    {
    }

    /** popLocked: the oldest record goes; compaction changes nothing visible. */
    method PopLocked()
      requires Valid() && head < |order|
      modifies this`entries, this`order, this`head
      ensures Valid() && Mem() == Memory(old(Mem()).flying, old(Mem()).live[1..])
      ensures |order| - head == old(|order| - head) - 1
    {
      ghost var was := Contents();
      PopMeans(was, clock + window);
      var oldest := order[head].value;
      assert SlotOk(was.queue[0], entries, cells, clock + window);
      order := order[head := None];
      head := head + 1;
      if oldest.key in entries && entries[oldest.key] == oldest.entry {
        entries := entries - {oldest.key};
      }
      assert Contents() == Popped(was);
      if head > 64 && head * 2 > |order| {
        order := order[head..];
        head := 0;
        assert Contents() == Popped(was);
      }
    }

    /** expireLocked: the expired front of the queue goes. */
    method ExpireLocked(now: int)
      requires Valid()
      modifies this`entries, this`order, this`head
      ensures Valid() && Mem() == Memory(old(Mem()).flying, Expire(old(Mem()).live, now))
      ensures |order| - head <= old(|order| - head)
    {
      while head < |order| && cells[order[head].value.entry].expires <= now
        invariant Valid() && Mem().flying == old(Mem()).flying && |order| - head <= old(|order| - head)
        invariant Expire(Mem().live, now) == Expire(old(Mem()).live, now)
        decreases |order| - head
      {
        assert SlotOk(Contents().queue[0], entries, cells, clock + window);
        PopLocked();
      }
    }

    /** Time passing changes nothing that is remembered. */
    ghost method SetClock(now: int)
      requires Valid() && clock <= now
      modifies this`clock
      ensures Valid() && clock == now && Mem() == old(Mem())
    {
      LaterBound(Contents(), clock + window, now + window);
      clock := now;
    }

    /** begin: grants the key unless a delivery of it is in flight or
        remembered; then the caller gets that delivery's entry. */
    method Begin(key: Key, now: int) returns (entry: int, granted: bool)
      requires AtRest() && clock <= now
      modifies this
      ensures AtRest() && clock == now
      ensures granted <==> key !in old(Mem()).flying && !Remembers(Expire(old(Mem()).live, now), key)
      ensures Mem() == Memory(if granted then old(Mem()).flying[key := entry] else old(Mem()).flying,
                              Expire(old(Mem()).live, now))
      ensures granted ==> entry !in old(cells)
      ensures !granted ==> Current(key, entry)
    {
      ExpireLocked(now);
      SetClock(now);
      entry, granted := GrantOrFind(key);
    }

    /** begin after expiry. */
    method GrantOrFind(key: Key) returns (entry: int, granted: bool)
      requires Valid()
      modifies this`entries, this`cells, this`nextEntry
      ensures Valid()
      ensures granted <==> key !in old(Mem()).flying && !Remembers(old(Mem()).live, key)
      ensures Mem() == Memory(if granted then old(Mem()).flying[key := entry] else old(Mem()).flying, old(Mem()).live)
      ensures granted ==> entry !in old(cells)
      ensures !granted ==> Current(key, entry)
    {
      EntryKnown(Contents(), clock + window, key);
      if key in entries {
        return entries[key], false;
      }
      entry := Grant(key);
      granted := true;
    }

    /** A fresh entry for a key that has none. */
    method Grant(key: Key) returns (entry: int)
      requires Valid() && key !in entries
      modifies this`entries, this`cells, this`nextEntry
      ensures Valid() && entry !in old(cells)
      ensures Mem() == Memory(old(Mem()).flying[key := entry], old(Mem()).live)
    {
      entry := nextEntry;
      GrantMeans(Contents(), clock + window, key, entry);
      entries := entries[key := entry];
      cells := cells[entry := Cell(false, [], 0)];
      nextEntry := nextEntry + 1;
    }

    /** finish's loop: the oldest records beyond `max` go. */
    method TrimLocked()
      requires Valid()
      modifies this`entries, this`order, this`head
      ensures AtRest() && Mem() == Memory(old(Mem()).flying, Trim(old(Mem()).live, max))
    {
      while |order| - head > max
        invariant Valid() && Mem().flying == old(Mem()).flying
        invariant Trim(Mem().live, max) == Trim(old(Mem()).live, max)
        decreases |order| - head
      {
        TrimOne(Mem().live, max);
        PopLocked();
      }
    }

    method Remember(key: Key, entry: int, ack: Ack, now: int)
      requires Valid() && clock <= now && key in Mem().flying && Mem().flying[key] == entry
      modifies this
      ensures Valid() && clock == now
      ensures Mem() == Memory(old(Mem()).flying - {key}, old(Mem()).live + [Record(key, entry, ack, now + window)])
    {
      ghost var was := Contents();
      KeepMeans(was, clock + window, key, ack, now + window);
      clock := now;
      cells := cells[entry := Cell(true, ack, now + window)];
      order := order + [Some(Slot(key, entry))];
      assert Contents() == KeptStore(was, key, ack, now + window);
    }

    method Forget(key: Key, entry: int, now: int)
      requires Valid() && clock <= now && key in Mem().flying && Mem().flying[key] == entry
      modifies this
      ensures Valid() && clock == now && order == old(order) && head == old(head)
      ensures Mem() == Memory(old(Mem()).flying - {key}, old(Mem()).live)
    {
      SetClock(now);
      FailMeans(Contents(), clock + window, key, cells[entry].ack, cells[entry].expires);
      if key in entries && entries[key] == entry { entries := entries - {key}; }
      cells := cells[entry := cells[entry].(done := true)];
    }

    /** finish: a stored delivery is remembered and the oldest ones beyond `max`
        are forgotten; a failed one leaves nothing. */
    method Finish(key: Key, entry: int, stored: bool, ack: Ack, now: int)
      requires AtRest() && clock <= now && key in Mem().flying && Mem().flying[key] == entry
      modifies this
      ensures AtRest() && clock == now
      ensures var live := old(Mem()).live;
              Mem() == Memory(old(Mem()).flying - {key},
                              if stored then Trim(live + [Record(key, entry, ack, now + window)], max) else live)
    {
      if stored {
        Remember(key, entry, ack, now);
        TrimLocked();
      } else {
        Forget(key, entry, now);
      }
    }

    /** The waiter's second look at the entry it waited for. */
    predicate Current(key: Key, entry: int)
      reads this
    {
      key in entries && entries[key] == entry
    }

    /** After a wait: a done entry that is still current is a stored delivery,
        and its ACK is what the duplicate is answered with. */
    method Recheck(key: Key, entry: int) returns (duplicateOf: Option<Ack>)
      requires Valid() && entry in cells && cells[entry].done
      ensures duplicateOf.Some? <==> Current(key, entry)
      ensures duplicateOf.Some? ==>
                exists i :: 0 <= i < |Mem().live| && Mem().live[i].key == key && Mem().live[i].entry == entry
                            && Mem().live[i].ack == duplicateOf.value
    {
      if key in entries && entries[key] == entry {
        ghost var q := order[head..];
        ghost var i :| 0 <= i < |q| && q[i].Some? && q[i].value.key == key;
        assert SlotOk(q[i], entries, cells, clock + window) && Mem().live[i].ack == cells[entry].ack;
        return Some(cells[entry].ack);
      }
      return None;
    }
  }
}
