/**
 * Duplicate suppression as it is meant: deliveries in flight, and a FIFO of
 * stored ones that forgets by age and by count. Histories of any number of
 * concurrent deliveries are runs of this machine.
 */
module DedupeSpec {
  import opened Prelude

  /** A delivery key: the digest over sender, type, file name, IDs and payload. */
  type Key = int

  /** The text a delivery was acknowledged with. */
  type Ack = seq<byte>

  /** A stored delivery that is still remembered. `entry` is its identity. */
  datatype Record<E> = Record(key: Key, entry: E, ack: Ack, expires: int)

  datatype Memory<E> = Memory(flying: map<Key, E>, live: seq<Record<E>>)

  /** Forgets the oldest records whose time has come. */
  function Expire<E>(live: seq<Record<E>>, now: int): seq<Record<E>> {
    if live == [] || now < live[0].expires then live else Expire(live[1..], now)
  }

  lemma {:induction false} ExpireSuffix<E>(live: seq<Record<E>>, now: int)
    ensures |Expire(live, now)| <= |live| && Expire(live, now) == live[|live| - |Expire(live, now)|..]
  {
    if live != [] && live[0].expires <= now { ExpireSuffix(live[1..], now); }
  }

  /** Keeps the newest `max` records. */
  function Trim<E>(live: seq<Record<E>>, max: nat): seq<Record<E>> {
    if |live| > max then live[|live| - max..] else live
  }

  predicate Remembers<E>(live: seq<Record<E>>, key: Key) {
    exists i :: 0 <= i < |live| && live[i].key == key
  }

  ghost predicate Sorted<E>(live: seq<Record<E>>) {
    forall i, j :: 0 <= i < j < |live| ==> live[i].expires <= live[j].expires
  }

  ghost predicate Distinct<E>(live: seq<Record<E>>) {
    forall i, j :: 0 <= i < j < |live| ==> live[i].key != live[j].key
  }

  /** In expiry order, dropping the expired prefix drops every expired record. */
  lemma {:induction false} ExpireLeavesNone<E>(live: seq<Record<E>>, now: int)
    requires Sorted(live)
    ensures forall i :: 0 <= i < |Expire(live, now)| ==> now < Expire(live, now)[i].expires
    ensures forall i :: 0 <= i < |live| - |Expire(live, now)| ==> live[i].expires <= now
  {
    if live != [] && live[0].expires <= now {
      ExpireLeavesNone(live[1..], now);
      forall i | 0 <= i < |live| - |Expire(live, now)| ensures live[i].expires <= now {
        if i > 0 { assert live[i] == live[1..][i - 1]; }
      }
    }
  }

  // ---- histories ---------------------------------------------------------

  datatype Event =
    | Granted(key: Key, at: int)
    | Kept(key: Key, ack: Ack, at: int)
    | Lost(key: Key, at: int)
    | Replayed(key: Key, ack: Ack, at: int)

  /** `stores` is every delivery ever stored, in order; `log` is everything. */
  datatype Stored = Stored(key: Key, ack: Ack, at: int)

  datatype System = System(mem: Memory<int>, now: int, nextEntry: int, stores: seq<Stored>, log: seq<Event>)

  datatype Step =
    | Tick(d: nat)
    | Begin(key: Key)
    | Finish(key: Key, stored: bool, ack: Ack)
    | Replay(key: Key, entry: int)

  /** begin: expire, then grant the key unless it is in flight or remembered. */
  function AfterBegin(s: System, key: Key): System {
    var live := Expire(s.mem.live, s.now);
    if key in s.mem.flying || Remembers(live, key) then s.(mem := s.mem.(live := live))
    else s.(mem := Memory(s.mem.flying[key := s.nextEntry], live), nextEntry := s.nextEntry + 1,
            log := s.log + [Granted(key, s.now)])
  }

  function AfterFinish(s: System, key: Key, stored: bool, ack: Ack, window: nat, max: nat): System
    requires key in s.mem.flying
  {
    var flying := s.mem.flying - {key};
    if stored then
      var rec := Record(key, s.mem.flying[key], ack, s.now + window);
      s.(mem := Memory(flying, Trim(s.mem.live + [rec], max)),
         stores := s.stores + [Stored(key, ack, s.now)], log := s.log + [Kept(key, ack, s.now)])
    else s.(mem := s.mem.(flying := flying), log := s.log + [Lost(key, s.now)])
  }

  /** The waiter's second look: its entry is still the one remembered. */
  ghost predicate CanReplay(s: System, key: Key, entry: int, i: int) {
    0 <= i < |s.mem.live| && s.mem.live[i].key == key && s.mem.live[i].entry == entry
  }

  ghost predicate Enabled(s: System, st: Step) {
    match st
    case Finish(key, _, _) => key in s.mem.flying
    case Replay(key, entry) => exists i :: CanReplay(s, key, entry, i)
    case _ => true
  }

  ghost function Next(s: System, st: Step, window: nat, max: nat): System
    requires Enabled(s, st)
  {
    match st
    case Tick(d) => s.(now := s.now + d)
    case Begin(key) => AfterBegin(s, key)
    case Finish(key, stored, ack) => AfterFinish(s, key, stored, ack, window, max)
    case Replay(key, entry) =>
      var i :| CanReplay(s, key, entry, i);
      s.(log := s.log + [Replayed(key, s.mem.live[i].ack, s.now)])
  }

  ghost predicate ValidRun(s: System, ss: seq<Step>, window: nat, max: nat)
    decreases |ss|
  {
    ss == [] || (Enabled(s, ss[0]) && ValidRun(Next(s, ss[0], window, max), ss[1..], window, max))
  }

  ghost function After(s: System, ss: seq<Step>, window: nat, max: nat): System
    requires ValidRun(s, ss, window, max)
    decreases |ss|
  {
    if ss == [] then s else After(Next(s, ss[0], window, max), ss[1..], window, max)
  }

  ghost predicate Initial(s: System) {
    s.mem == Memory(map[], []) && s.stores == [] && s.log == []
  }

  // ---- the invariant -----------------------------------------------------

  /** Store i is past its window, or `max` later ones pushed it out. */
  ghost predicate Forgettable(stores: seq<Stored>, now: int, i: int, window: nat, max: nat)
    requires 0 <= i < |stores|
  {
    stores[i].at + window <= now || |stores| - i - 1 >= max
  }

  ghost predicate Ordered(stores: seq<Stored>, now: int) {
    && (forall i, j :: 0 <= i < j < |stores| ==> stores[i].at <= stores[j].at)
    && (forall i :: 0 <= i < |stores| ==> stores[i].at <= now)
  }

  ghost predicate RecordOf(r: Record<int>, s: Stored, window: nat) {
    r.key == s.key && r.ack == s.ack && r.expires == s.at + window
  }

  /** What is remembered is exactly the newest stores. */
  ghost predicate Newest(live: seq<Record<int>>, stores: seq<Stored>, window: nat) {
    && |live| <= |stores|
    && forall j :: 0 <= j < |live| ==> RecordOf(live[j], stores[|stores| - |live| + j], window)
  }

  /** All but the newest n stores may be forgotten. */
  ghost predicate RestForgettable(stores: seq<Stored>, now: int, n: nat, window: nat, max: nat) {
    forall i :: 0 <= i < |stores| - n ==> Forgettable(stores, now, i, window, max)
  }

  ghost predicate OneEach(mem: Memory<int>) {
    Distinct(mem.live) && forall j :: 0 <= j < |mem.live| ==> mem.live[j].key !in mem.flying
  }

  /** The keys of which the log has an unfinished grant. */
  ghost function OpenKeys(log: seq<Event>): set<Key> {
    if log == [] then {} else OpenAfter(OpenKeys(log[..|log| - 1]), log[|log| - 1])
  }

  ghost function OpenAfter(open: set<Key>, e: Event): set<Key> {
    if e.Granted? then open + {e.key} else if e.Replayed? then open else open - {e.key}
  }

  ghost predicate FlyingIsOpen(flying: map<Key, int>, log: seq<Event>) {
    flying.Keys == OpenKeys(log)
  }

  /** Stores of keys other than `key` from index i on, below n. */
  ghost function Others(stores: seq<Stored>, key: Key, i: nat, n: nat): nat
    requires i <= n <= |stores|
    decreases n - i
  {
    if i == n then 0 else (if stores[i].key != key then 1 else 0) + Others(stores, key, i + 1, n)
  }

  /** Every replayed ACK is that of a delivery with the same key that was stored. */
  ghost predicate ReplaysStored(stores: seq<Stored>, log: seq<Event>) {
    forall g :: 0 <= g < |log| && log[g].Replayed? ==> WasStored(stores, log[g].key, log[g].ack)
  }

  ghost predicate WasStored(stores: seq<Stored>, key: Key, ack: Ack) {
    exists i :: 0 <= i < |stores| && stores[i].key == key && stores[i].ack == ack
  }

  ghost predicate Inv(s: System, window: nat, max: nat) {
    && Ordered(s.stores, s.now) && Newest(s.mem.live, s.stores, window) && |s.mem.live| <= max
    && RestForgettable(s.stores, s.now, |s.mem.live|, window, max)
    && OneEach(s.mem) && FlyingIsOpen(s.mem.flying, s.log) && ReplaysStored(s.stores, s.log)
  }

  lemma InitialInv(s: System, window: nat, max: nat)
    requires Initial(s)
    ensures Inv(s, window, max)
  {
  }

  // ---- each step keeps it ------------------------------------------------

  lemma NewestSorted(live: seq<Record<int>>, stores: seq<Stored>, now: int, window: nat)
    requires Ordered(stores, now) && Newest(live, stores, window)
    ensures Sorted(live)
  {
  }

  lemma SuffixNewest(live: seq<Record<int>>, cut: nat, stores: seq<Stored>, window: nat)
    requires Newest(live, stores, window) && cut <= |live|
    ensures Newest(live[cut..], stores, window)
  {
  }

  lemma ExpireForgets(s: System, window: nat, max: nat)
    requires Inv(s, window, max)
    ensures RestForgettable(s.stores, s.now, |Expire(s.mem.live, s.now)|, window, max)
  {
    var live, d := Expire(s.mem.live, s.now), |s.stores| - |s.mem.live|;
    NewestSorted(s.mem.live, s.stores, s.now, window);
    ExpireLeavesNone(s.mem.live, s.now);
    ExpireSuffix(s.mem.live, s.now);
    forall i | 0 <= i < |s.stores| - |live| ensures Forgettable(s.stores, s.now, i, window, max) {
      if i >= d { assert RecordOf(s.mem.live[i - d], s.stores[i], window); }
    }
  }

  lemma ExpireInv(s: System, window: nat, max: nat)
    requires Inv(s, window, max)
    ensures Inv(s.(mem := s.mem.(live := Expire(s.mem.live, s.now))), window, max)
  {
    ExpireSuffix(s.mem.live, s.now);
    ExpireForgets(s, window, max);
    SuffixNewest(s.mem.live, |s.mem.live| - |Expire(s.mem.live, s.now)|, s.stores, window);
  }

  lemma LogAppend(log: seq<Event>, e: Event)
    ensures OpenKeys(log + [e]) == OpenAfter(OpenKeys(log), e)
  {
    assert (log + [e])[..|log|] == log;
  }

  lemma BeginInv(s: System, key: Key, window: nat, max: nat)
    requires Inv(s, window, max)
    ensures Inv(AfterBegin(s, key), window, max)
  {
    ExpireInv(s, window, max);
    LogAppend(s.log, Granted(key, s.now));
  }

  lemma StoredMore(stores: seq<Stored>, s: Stored, log: seq<Event>)
    requires ReplaysStored(stores, log)
    ensures ReplaysStored(stores + [s], log)
  {
    forall g | 0 <= g < |log| && log[g].Replayed? ensures WasStored(stores + [s], log[g].key, log[g].ack) {
      assert WasStored(stores, log[g].key, log[g].ack);
      var i :| 0 <= i < |stores| && stores[i].key == log[g].key && stores[i].ack == log[g].ack;
      assert (stores + [s])[i] == stores[i];
    }
  }

  lemma AppendNewest(live: seq<Record<int>>, stores: seq<Stored>, r: Record<int>, s: Stored, window: nat)
    requires Newest(live, stores, window) && RecordOf(r, s, window)
    ensures Newest(live + [r], stores + [s], window)
  {
  }

  lemma KeptForgets(stores: seq<Stored>, s: Stored, now: int, n: nat, window: nat, max: nat)
    requires RestForgettable(stores, now, n, window, max) && n <= |stores| && n <= max
    ensures RestForgettable(stores + [s], now, Min(n + 1, max), window, max)
  {
    forall i | 0 <= i < |stores| + 1 - Min(n + 1, max) ensures Forgettable(stores + [s], now, i, window, max) {
      assert i < |stores| - n ==> Forgettable(stores, now, i, window, max);
    }
  }

  lemma TrimOneEach(mem: Memory<int>, r: Record<int>, max: nat)
    requires OneEach(mem) && r.key in mem.flying
    ensures OneEach(Memory(mem.flying - {r.key}, Trim(mem.live + [r], max)))
  {
  }

  lemma KeptMemory(s: System, key: Key, ack: Ack, window: nat, max: nat)
    requires Newest(s.mem.live, s.stores, window) && |s.mem.live| <= max && OneEach(s.mem) && key in s.mem.flying
    ensures var s' := AfterFinish(s, key, true, ack, window, max);
            Newest(s'.mem.live, s'.stores, window) && |s'.mem.live| == Min(|s.mem.live| + 1, max) && OneEach(s'.mem)
  {
    var r, st := Record(key, s.mem.flying[key], ack, s.now + window), Stored(key, ack, s.now);
    KeptNewest(s.mem.live, s.stores, r, st, window, max);
    TrimOneEach(s.mem, r, max);
  }

  lemma KeptHistory(s: System, key: Key, ack: Ack, window: nat, max: nat)
    requires Ordered(s.stores, s.now) && ReplaysStored(s.stores, s.log) && FlyingIsOpen(s.mem.flying, s.log)
    requires key in s.mem.flying
    ensures var s' := AfterFinish(s, key, true, ack, window, max);
            Ordered(s'.stores, s'.now) && ReplaysStored(s'.stores, s'.log) && FlyingIsOpen(s'.mem.flying, s'.log)
  {
    var st, e := Stored(key, ack, s.now), Kept(key, ack, s.now);
    KeptLog(s.mem.flying, s.log, key, ack, s.now);
    KeptReplays(s.stores, st, s.log, e);
    KeptOrdered(s.stores, st, s.now);
  }

  lemma FinishKept(s: System, key: Key, ack: Ack, window: nat, max: nat)
    requires Inv(s, window, max) && key in s.mem.flying
    ensures Inv(AfterFinish(s, key, true, ack, window, max), window, max)
  {
    KeptMemory(s, key, ack, window, max);
    KeptHistory(s, key, ack, window, max);
    KeptForgets(s.stores, Stored(key, ack, s.now), s.now, |s.mem.live|, window, max);
    InvOf(AfterFinish(s, key, true, ack, window, max), window, max);
  }

  /** The invariant, from its parts. */
  lemma InvOf(s: System, window: nat, max: nat)
    requires Ordered(s.stores, s.now) && Newest(s.mem.live, s.stores, window) && |s.mem.live| <= max
    requires RestForgettable(s.stores, s.now, |s.mem.live|, window, max)
    requires OneEach(s.mem) && FlyingIsOpen(s.mem.flying, s.log) && ReplaysStored(s.stores, s.log)
    ensures Inv(s, window, max)
  {
  }

  lemma KeptLog(flying: map<Key, int>, log: seq<Event>, key: Key, ack: Ack, now: int)
    requires FlyingIsOpen(flying, log)
    ensures FlyingIsOpen(flying - {key}, log + [Kept(key, ack, now)])
  {
    LogAppend(log, Kept(key, ack, now));
  }

  lemma KeptReplays(stores: seq<Stored>, st: Stored, log: seq<Event>, e: Event)
    requires ReplaysStored(stores, log) && e.Kept?
    ensures ReplaysStored(stores + [st], log + [e])
  {
    StoredMore(stores, st, log);
    forall g | 0 <= g < |log + [e]| && (log + [e])[g].Replayed?
      ensures WasStored(stores + [st], (log + [e])[g].key, (log + [e])[g].ack)
    {
      assert (log + [e])[g] == log[g];
    }
  }

  lemma KeptOrdered(stores: seq<Stored>, st: Stored, now: int)
    requires Ordered(stores, now) && st.at == now
    ensures Ordered(stores + [st], now)
  {
  }

  lemma KeptNewest(live: seq<Record<int>>, stores: seq<Stored>, r: Record<int>, st: Stored, window: nat, max: nat)
    requires Newest(live, stores, window) && RecordOf(r, st, window) && |live| <= max
    ensures Newest(Trim(live + [r], max), stores + [st], window) && |Trim(live + [r], max)| == Min(|live| + 1, max)
  {
    AppendNewest(live, stores, r, st, window);
    if |live| == max { SuffixNewest(live + [r], 1, stores + [st], window); }
  }

  lemma FinishLost(s: System, key: Key, window: nat, max: nat)
    requires Inv(s, window, max) && key in s.mem.flying
    ensures Inv(AfterFinish(s, key, false, [], window, max), window, max)
  {
    LogAppend(s.log, Lost(key, s.now));
  }

  lemma ReplayInv(s: System, st: Step, window: nat, max: nat)
    requires Inv(s, window, max) && Enabled(s, st) && st.Replay?
    ensures Inv(Next(s, st, window, max), window, max)
  {
    var s' := Next(s, st, window, max);
    var e := s'.log[|s.log|];
    LogAppend(s.log, e);
    var i :| CanReplay(s, st.key, st.entry, i) && e.ack == s.mem.live[i].ack;
    assert RecordOf(s.mem.live[i], s.stores[|s.stores| - |s.mem.live| + i], window);
  }

  lemma LaterForgettable(stores: seq<Stored>, now: int, later: int, n: nat, window: nat, max: nat)
    requires RestForgettable(stores, now, n, window, max) && now <= later
    ensures RestForgettable(stores, later, n, window, max)
  {
    forall i | 0 <= i < |stores| - n ensures Forgettable(stores, later, i, window, max) {
      assert Forgettable(stores, now, i, window, max);
    }
  }

  lemma StepInv(s: System, st: Step, window: nat, max: nat)
    requires Inv(s, window, max) && Enabled(s, st)
    ensures Inv(Next(s, st, window, max), window, max)
  {
    match st
    case Tick(d) => LaterForgettable(s.stores, s.now, s.now + d, |s.mem.live|, window, max);
    case Begin(key) => BeginInv(s, key, window, max);
    case Finish(key, stored, ack) =>
      if stored { FinishKept(s, key, ack, window, max); } else { FinishLost(s, key, window, max); }
    case Replay(key, entry) => ReplayInv(s, st, window, max);
  }

  lemma {:induction false} RunInv(s: System, ss: seq<Step>, window: nat, max: nat)
    requires Inv(s, window, max) && ValidRun(s, ss, window, max)
    ensures Inv(After(s, ss, window, max), window, max)
    decreases |ss|
  {
    if ss != [] {
      StepInv(s, ss[0], window, max);
      RunInv(Next(s, ss[0], window, max), ss[1..], window, max);
    }
  }

  // ---- what a history promises -------------------------------------------

  /** Stores after the last one of `key` are all of other keys. */
  lemma {:induction false} OthersAll(stores: seq<Stored>, key: Key, i: nat, n: nat)
    requires i <= n <= |stores| && forall j :: i <= j < n ==> stores[j].key != key
    ensures Others(stores, key, i, n) == n - i
    decreases n - i
  {
    if i < n { OthersAll(stores, key, i + 1, n); }
  }

  lemma {:induction false} OthersMore(stores: seq<Stored>, key: Key, i: nat, j: nat, n: nat)
    requires i <= j <= n <= |stores|
    ensures Others(stores, key, i, n) >= Others(stores, key, j, n)
    decreases j - i
  {
    if i < j { OthersMore(stores, key, i + 1, j, n); }
  }

  lemma NewStoreRemembered(s: System, i: nat, window: nat, max: nat)
    requires Inv(s, window, max) && i < |s.stores|
    ensures i >= |s.stores| - |s.mem.live| ==> Remembers(s.mem.live, s.stores[i].key)
  {
    var d := |s.stores| - |s.mem.live|;
    if i >= d { assert RecordOf(s.mem.live[i - d], s.stores[d + (i - d)], window); }
  }

  /** A key still within reach of neither forgetting rule is remembered. */
  lemma {:induction false} StoredOrForgettable(s: System, key: Key, i: nat, window: nat, max: nat)
    requires Inv(s, window, max) && i < |s.stores| && s.stores[i].key == key
    requires !Remembers(s.mem.live, key)
    ensures s.stores[i].at + window <= s.now || Others(s.stores, key, i + 1, |s.stores|) >= max
    decreases |s.stores| - i
  {
    NewStoreRemembered(s, i, window, max);
    if exists j :: i < j < |s.stores| && s.stores[j].key == key {
      var j :| i < j < |s.stores| && s.stores[j].key == key;
      StoredOrForgettable(s, key, j, window, max);
      OthersMore(s.stores, key, i + 1, j + 1, |s.stores|);
    } else {
      assert Forgettable(s.stores, s.now, i, window, max);
      OthersAll(s.stores, key, i + 1, |s.stores|);
    }
  }

  /** At most once: in any history, a key stored before is granted again only
      once its window has passed or `max` deliveries of other keys were stored
      since; and never while a delivery of that key is still unfinished. */
  lemma GrantedAgainOnlyWhenForgotten(s: System, ss: seq<Step>, window: nat, max: nat, key: Key, i: nat)
    requires Initial(s) && ValidRun(s, ss, window, max)
    requires var v := After(s, ss, window, max); AfterBegin(v, key).log == v.log + [Granted(key, v.now)]
    ensures var v := After(s, ss, window, max);
            && key !in OpenKeys(v.log)
            && (i < |v.stores| && v.stores[i].key == key ==>
                  v.stores[i].at + window <= v.now || Others(v.stores, key, i + 1, |v.stores|) >= max)
  {
    InitialInv(s, window, max);
    RunInv(s, ss, window, max);
    var v := After(s, ss, window, max);
    ExpireInv(v, window, max);
    var v' := v.(mem := v.mem.(live := Expire(v.mem.live, v.now)));
    if i < |v.stores| && v.stores[i].key == key { StoredOrForgettable(v', key, i, window, max); }
  }

  /** A delivery stored within the window and among the last `max` is remembered. */
  lemma RecentIsRemembered(s: System, window: nat, max: nat, i: nat)
    requires Inv(s, window, max) && i < |s.stores| && s.now < s.stores[i].at + window && |s.stores| - i <= max
    ensures Remembers(Expire(s.mem.live, s.now), s.stores[i].key)
  {
    ExpireInv(s, window, max);
    var s' := s.(mem := s.mem.(live := Expire(s.mem.live, s.now)));
    assert i < |s'.stores| - |s'.mem.live| ==> Forgettable(s'.stores, s'.now, i, window, max);
    NewStoreRemembered(s', i, window, max);
  }

  /** A store of the key that is within the window and among the last `max`. */
  ghost predicate RecentStore(s: System, key: Key, i: int, window: nat, max: nat) {
    0 <= i < |s.stores| && s.stores[i].key == key && s.now < s.stores[i].at + window && |s.stores| - i <= max
  }

  /** A key is remembered exactly if there is a recent store of it. */
  lemma RememberedIffRecent(s: System, window: nat, max: nat, key: Key)
    requires Inv(s, window, max)
    ensures Remembers(Expire(s.mem.live, s.now), key) <==> exists i :: RecentStore(s, key, i, window, max)
  {
    if i :| RecentStore(s, key, i, window, max) { RecentIsRemembered(s, window, max, i); }
    var live := Expire(s.mem.live, s.now);
    if j :| 0 <= j < |live| && live[j].key == key {
      ExpireSuffix(s.mem.live, s.now);
      NewestSorted(s.mem.live, s.stores, s.now, window);
      ExpireLeavesNone(s.mem.live, s.now);
      SuffixNewest(s.mem.live, |s.mem.live| - |live|, s.stores, window);
      assert RecentStore(s, key, |s.stores| - |live| + j, window, max);
    }
  }

  /** In every history a key is a duplicate exactly if a delivery of it is
      unfinished, or was stored within the window and among the last `max`. */
  lemma GrantedIffForgotten(s: System, ss: seq<Step>, window: nat, max: nat, key: Key)
    requires Initial(s) && ValidRun(s, ss, window, max)
    ensures var v := After(s, ss, window, max);
            (AfterBegin(v, key).log == v.log + [Granted(key, v.now)])
            <==> (key !in OpenKeys(v.log) && forall i :: !RecentStore(v, key, i, window, max))
  {
    InitialInv(s, window, max);
    RunInv(s, ss, window, max);
    RememberedIffRecent(After(s, ss, window, max), window, max, key);
  }

  /** Conversely a delivery stored within the window and among the last `max`
      is never granted again: it is found remembered. */
  lemma RecentStoreIsKnown(s: System, ss: seq<Step>, window: nat, max: nat, i: nat)
    requires Initial(s) && ValidRun(s, ss, window, max)
    requires var v := After(s, ss, window, max);
             i < |v.stores| && v.now < v.stores[i].at + window && |v.stores| - i <= max
    ensures var v := After(s, ss, window, max);
            AfterBegin(v, v.stores[i].key).log == v.log && WasStored(v.stores, v.stores[i].key, v.stores[i].ack)
            && Remembers(Expire(v.mem.live, v.now), v.stores[i].key)
  {
    InitialInv(s, window, max);
    RunInv(s, ss, window, max);
    RecentIsRemembered(After(s, ss, window, max), window, max, i);
  }

  /** Every duplicate answer replays the ACK of a stored delivery of its key. */
  lemma DuplicatesReplayStored(s: System, ss: seq<Step>, window: nat, max: nat, g: nat)
    requires Initial(s) && ValidRun(s, ss, window, max)
    requires g < |After(s, ss, window, max).log| && After(s, ss, window, max).log[g].Replayed?
    ensures var v := After(s, ss, window, max); WasStored(v.stores, v.log[g].key, v.log[g].ack)
  {
    InitialInv(s, window, max);
    RunInv(s, ss, window, max);
  }

  /** A delivery that failed leaves no trace: the next copy is granted at once. */
  lemma FailedIsForgotten(s: System, ss: seq<Step>, window: nat, max: nat, key: Key)
    requires Initial(s) && ValidRun(s, ss, window, max) && key in After(s, ss, window, max).mem.flying
    ensures var v := AfterFinish(After(s, ss, window, max), key, false, [], window, max);
            AfterBegin(v, key).log == v.log + [Granted(key, v.now)]
  {
    InitialInv(s, window, max);
    RunInv(s, ss, window, max);
    ExpireInv(After(s, ss, window, max), window, max);
  }
}
