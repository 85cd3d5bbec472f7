/** Types and helpers shared by every model of the data-exchange package. */
module Prelude {

  /** One byte on the wire or on disk. */
  type byte = b: int | 0 <= b < 256

  datatype Option<+T> = None | Some(value: T)

  datatype Result<+T, +E> = Ok(value: T) | Err(error: E)

  function Min(a: int, b: int): (m: int)
    ensures m <= a && m <= b && (m == a || m == b)
  {
    if a <= b then a else b
  }

  function Max(a: int, b: int): (m: int)
    ensures m >= a && m >= b && (m == a || m == b)
  {
    if a >= b then a else b
  }

  /** Total length of the byte strings a map holds. */
  ghost function TotalLen<K>(m: map<K, seq<byte>>): nat {
    if m == map[] then 0
    else
      var k :| k in m;
      |m[k]| + TotalLen(m - {k})
  }

  /** Whichever key is taken out first, the total is the same. */
  lemma {:induction false} TotalLenRemove<K>(m: map<K, seq<byte>>, k: K)
    requires k in m
    ensures TotalLen(m) == |m[k]| + TotalLen(m - {k})
    decreases |m|
  {
    var j :| j in m && TotalLen(m) == |m[j]| + TotalLen(m - {j});
    if j != k {
      TotalLenRemove(m - {j}, k);
      TotalLenRemove(m - {k}, j);
      assert m - {j} - {k} == m - {k} - {j};
    }
  }

  lemma TotalLenAdd<K>(m: map<K, seq<byte>>, k: K, d: seq<byte>)
    requires k !in m
    ensures TotalLen(m[k := d]) == TotalLen(m) + |d|
  {
    TotalLenRemove(m[k := d], k);
    assert m[k := d] - {k} == m;
  }

  // ---- totals of a table of sizes ----------------------------------------

  ghost function Total<K>(d: map<K, nat>): nat {
    if d == map[] then 0
    else
      var n :| n in d;
      d[n] + Total(d - {n})
  }

  lemma {:induction false} TotalRemove<K>(d: map<K, nat>, n: K)
    requires n in d
    ensures Total(d) == d[n] + Total(d - {n})
    decreases |d|
  {
    var m :| m in d && Total(d) == d[m] + Total(d - {m});
    if m != n {
      TotalRemove(d - {m}, n);
      TotalRemove(d - {n}, m);
      assert d - {m} - {n} == d - {n} - {m};
    }
  }

  lemma TotalAdd<K>(d: map<K, nat>, n: K, size: nat)
    requires n !in d
    ensures Total(d[n := size]) == Total(d) + size
  {
    TotalRemove(d[n := size], n);
    assert d[n := size] - {n} == d;
  }

  /** d is e with files missing or shorter. */
  ghost predicate Within<K>(d: map<K, nat>, e: map<K, nat>) {
    forall n :: n in d ==> n in e && d[n] <= e[n]
  }

  lemma {:induction false} TotalWithin<K>(d: map<K, nat>, e: map<K, nat>)
    requires Within(d, e)
    ensures Total(d) <= Total(e)
    decreases |e|
  {
    if e == map[] {
      assert d == map[];
    } else {
      var n :| n in e && Total(e) == e[n] + Total(e - {n});
      TotalWithin(d - {n}, e - {n});
      if n in d { TotalRemove(d, n); } else { assert d - {n} == d; }
    }
  }

  ghost function Settled<K>(d: map<K, nat>, inflight: set<K>): map<K, nat> {
    map n | n in d && n !in inflight :: d[n]
  }

  ghost function Unsettled<K>(d: map<K, nat>, inflight: set<K>): map<K, nat> {
    map n | n in d && n in inflight :: d[n]
  }

  lemma {:induction false} TotalSplit<K>(d: map<K, nat>, inflight: set<K>)
    ensures Total(d) == Total(Settled(d, inflight)) + Total(Unsettled(d, inflight))
    decreases |d|
  {
    if d == map[] {
      assert Settled(d, inflight) == map[] && Unsettled(d, inflight) == map[];
    } else {
      var n :| n in d && Total(d) == d[n] + Total(d - {n});
      TotalSplit(d - {n}, inflight);
      if n in inflight {
        TotalRemove(Unsettled(d, inflight), n);
        assert Unsettled(d, inflight) - {n} == Unsettled(d - {n}, inflight);
        assert Settled(d, inflight) == Settled(d - {n}, inflight);
      } else {
        TotalRemove(Settled(d, inflight), n);
        assert Settled(d, inflight) - {n} == Settled(d - {n}, inflight);
        assert Unsettled(d, inflight) == Unsettled(d - {n}, inflight);
      }
    }
  }
}
