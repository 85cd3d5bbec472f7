/** What identifies a delivery to the duplicate cache (`deliveryKeyFor` in `dedupe.go`). */
module DeliveryKey {
  import opened Prelude
  import opened Wire
  import opened Frames

  function Prefixed(b: Bytes): Bytes { Big(8, |b|) + b }

  /** What deliveryKeyFor hashes: the sender, then everything in the frame. */
  function KeyText(from: Bytes, f: Frame): Bytes {
    Prefixed(from) + (Big(4, f.ftype) + (Prefixed(f.filename) + (Prefixed(f.messageID) + (Prefixed(f.replyTo) + Prefixed(f.payload)))))
  }

  predicate Long(b: Bytes) { |b| >= 0x1_0000_0000_0000_0000 }

  lemma LengthInjective(m: nat, n: nat)
    requires m < 0x1_0000_0000_0000_0000 && n < 0x1_0000_0000_0000_0000 && Big(8, m) == Big(8, n)
    ensures m == n
  {
    Widths();
    UnbigBig(8, m);
    UnbigBig(8, n);
  }

  /** A length-prefixed field cannot be shifted into the next. */
  lemma PrefixedInjective(a: Bytes, x: Bytes, b: Bytes, y: Bytes)
    requires Prefixed(a) + x == Prefixed(b) + y && !Long(a) && !Long(b)
    ensures a == b && x == y
  {
    assert Prefixed(a) + x == Big(8, |a|) + (a + x) && Prefixed(b) + y == Big(8, |b|) + (b + y);
    SplitAt(Big(8, |a|), a + x, Big(8, |b|), b + y);
    LengthInjective(|a|, |b|);
    SplitAt(a, x, b, y);
  }

  ghost predicate InMemory(from: Bytes, f: Frame) {
    !Long(from) && !Long(f.filename) && !Long(f.messageID) && !Long(f.replyTo) && !Long(f.payload)
  }

  /** Two deliveries with equal key texts are identical in sender and frame. */
  lemma KeyTextInjective(from: Bytes, f: Frame, from': Bytes, g: Frame)
    requires KeyText(from, f) == KeyText(from', g) && InMemory(from, f) && InMemory(from', g)
    ensures from == from' && f == g
  {
    var rf := Prefixed(f.filename) + (Prefixed(f.messageID) + (Prefixed(f.replyTo) + Prefixed(f.payload)));
    var rg := Prefixed(g.filename) + (Prefixed(g.messageID) + (Prefixed(g.replyTo) + Prefixed(g.payload)));
    PrefixedInjective(from, Big(4, f.ftype) + rf, from', Big(4, g.ftype) + rg);
    SplitAt(Big(4, f.ftype), rf, Big(4, g.ftype), rg);
    Widths();
    UnbigBig(4, f.ftype);
    UnbigBig(4, g.ftype);
    var sf, sg := Prefixed(f.messageID) + (Prefixed(f.replyTo) + Prefixed(f.payload)), Prefixed(g.messageID) + (Prefixed(g.replyTo) + Prefixed(g.payload));
    PrefixedInjective(f.filename, sf, g.filename, sg);
    var tf, tg := Prefixed(f.replyTo) + Prefixed(f.payload), Prefixed(g.replyTo) + Prefixed(g.payload);
    PrefixedInjective(f.messageID, tf, g.messageID, tg);
    PrefixedInjective(f.replyTo, Prefixed(f.payload), g.replyTo, Prefixed(g.payload));
    assert Prefixed(f.payload) + [] == Prefixed(f.payload) && Prefixed(g.payload) + [] == Prefixed(g.payload);
    PrefixedInjective(f.payload, [], g.payload, []);
  }
}
