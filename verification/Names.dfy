/** The names of frame types (`TypeName` in `dataexchange.go`), as text. */
module Names {
  import opened Prelude
  import opened Wire
  import opened Frames

  /** %d */
  function Dec(n: nat): (d: Bytes)
    ensures d != [] && forall i :: 0 <= i < |d| ==> 48 <= d[i] <= 57
  {
    if n < 10 then [48 + n] else Dec(n / 10) + [48 + n % 10]
  }

  function Undec(d: Bytes): int {
    if d == [] then 0 else 10 * Undec(d[..|d| - 1]) + d[|d| - 1] - 48
  }

  lemma {:induction false} UndecDec(n: nat)
    ensures Undec(Dec(n)) == n
  {
    if n >= 10 {
      UndecDec(n / 10);
      assert Dec(n)[..|Dec(n)| - 1] == Dec(n / 10);
    } else {
      assert Dec(n)[..0] == [];
    }
  }

  ghost function Ten(k: nat): nat { if k == 0 then 1 else 10 * Ten(k - 1) }

  lemma {:induction false} DecLength(n: nat, k: nat)
    requires k > 0 && n < Ten(k)
    ensures |Dec(n)| <= k
  {
    assert Ten(1) == 10 * Ten(0);
    if n >= 10 {
      DecLength(n / 10, k - 1);
    }
  }

  lemma Dec32(n: nat)
    requires n < 0x1_0000_0000
    ensures |Dec(n)| <= 10
  {
    assert Ten(5) == 100000;
    assert Ten(10) == 10000000000;
    DecLength(n, 10);
  }

  function Unknown(t: uint32): Bytes { Ascii("UNKNOWN(") + Dec(t) + [41] }

  function KnownName(t: uint32): Option<string> {
    if t == TYPE_TEXT then Some("TEXT")
    else if t == TYPE_BINARY then Some("BINARY")
    else if t == TYPE_JSON then Some("JSON")
    else if t == TYPE_FILE then Some("FILE")
    else if t == TYPE_TRACE then Some("TRACE")
    else if t == TYPE_FILE_STREAM then Some("FILESTREAM")
    else if t == TYPE_GOVERNED then Some("GOVERNED")
    else if t == TYPE_GOVERNED_FILE_STREAM then Some("GOVERNED_FILESTREAM")
    else if t == TYPE_TAGGED then Some("TAGGED")
    else None
  }

  function TypeName(t: uint32): Bytes {
    match KnownName(t)
    case Some(s) => Ascii(s)
    case None => Unknown(t)
  }

  const SPACE: byte := 32

  lemma UnknownInjective(t: uint32, u: uint32)
    requires Unknown(t) == Unknown(u)
    ensures t == u
  {
    assert Unknown(t) == Ascii("UNKNOWN(") + (Dec(t) + [41]) && Unknown(u) == Ascii("UNKNOWN(") + (Dec(u) + [41]);
    SplitAt(Ascii("UNKNOWN("), Dec(t) + [41], Ascii("UNKNOWN("), Dec(u) + [41]);
    assert Dec(t) + [41] == Dec(t) + [41] + [] && Dec(u) + [41] == Dec(u) + [41] + [];
    UntilStop(Dec(t), [], Dec(u), [], 41);
    UndecDec(t);
    UndecDec(u);
  }

  predicate Word(s: string) {
    |s| >= 4 && forall i :: 0 <= i < |s| ==> ' ' < s[i] <= 'z'
  }

  /** The first letter and the length tell the known names apart. */
  lemma KnownShape(t: uint32)
    requires KnownName(t).Some?
    ensures var s := KnownName(t).value;
      Word(s) && |s| <= 19 && s[0] != 'U' && [|s|, s[0] as int] ==
        [[4, 84], [6, 66], [4, 74], [4, 70], [5, 84], [0, 0], [10, 70], [8, 71], [19, 71], [6, 84]][t - 1]
  {
  }

  lemma UnknownShape(t: uint32)
    ensures |Unknown(t)| <= 19 && Unknown(t)[0] == 'U' as int && SPACE !in Unknown(t)
  {
    Dec32(t);
    assert Word("UNKNOWN(");
  }

  /** No two frame types share a name. */
  lemma TypeNameInjective(t: uint32, u: uint32)
    requires TypeName(t) == TypeName(u)
    ensures t == u
  {
    if KnownName(t).Some? { KnownShape(t); } else { UnknownShape(t); }
    if KnownName(u).Some? { KnownShape(u); } else { UnknownShape(u); }
    if KnownName(t).None? && KnownName(u).None? { UnknownInjective(t, u); }
  }

  lemma NameShape(t: uint32)
    ensures |TypeName(t)| <= 19 && SPACE !in TypeName(t) && TypeName(t) != Unknown(TYPE_TAGGED)
  {
    UnknownShape(TYPE_TAGGED);
    if KnownName(t).Some? { KnownShape(t); }
    else {
      UnknownShape(t);
      if Unknown(t) == Unknown(TYPE_TAGGED) { UnknownInjective(t, TYPE_TAGGED); }
    }
  }
}
