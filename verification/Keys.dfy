/** The key layout: entries sort by seq, and the meta record stays out of their range. */
module Keys {
  import opened Base

  const META_KEY: Bytes := [0]
  const ENTRY_PREFIX: byte := 1
  const ENTRY_LOW: Bytes := [ENTRY_PREFIX]
  const ENTRY_HIGH: Bytes := [ENTRY_PREFIX, 255, 255, 255, 255, 255, 255, 255, 255]

  // ---- big-endian numbers ----

  function Pow256(n: nat): (p: nat)
    ensures p > 0
  {
    if n == 0 then 1 else 256 * Pow256(n - 1)
  }

  function ToBigEndian(x: nat, width: nat): (b: Bytes)
    requires x < Pow256(width)
    ensures |b| == width
  {
    if width == 0 then []
    else
      var unit := Pow256(width - 1);
      DigitBound(x, width);
      [(x / unit) as byte] + ToBigEndian(x % unit, width - 1)
  }

  lemma Multiples(a: int, b: int, unit: nat)
    requires a < b
    ensures a * unit + unit <= b * unit
  {
    assert b * unit - a * unit == (b - a) * unit;
    assert (b - a) * unit == (b - a - 1) * unit + unit;
    assert (b - a - 1) * unit >= 0;
  }

  lemma OneQuotient(q: int, r: nat, d: int, s: nat, unit: nat)
    requires r < unit && s < unit && q * unit + r == d * unit + s
    ensures q == d && r == s
  {
    if q < d {
      Multiples(q, d, unit);
    }
    if d < q {
      Multiples(d, q, unit);
    }
  }

  lemma Quotient(x: nat, unit: nat)
    requires unit > 0
    ensures x / unit >= 0 && x == (x / unit) * unit + x % unit
  {
  }

  lemma DigitBound(x: nat, width: nat)
    requires width > 0 && x < Pow256(width)
    ensures 0 <= x / Pow256(width - 1) < 256
  {
    var unit := Pow256(width - 1);
    Quotient(x, unit);
    if x / unit > 255 {
      Multiples(255, x / unit, unit);
    }
  }

  function FromBigEndian(b: Bytes): nat {
    if b == [] then 0 else b[0] as nat * Pow256(|b| - 1) + FromBigEndian(b[1..])
  }

  lemma {:induction false} FromBound(b: Bytes)
    ensures FromBigEndian(b) < Pow256(|b|)
  {
    if b != [] {
      FromBound(b[1..]);
      Multiples(b[0] as int, 256, Pow256(|b| - 1));
    }
  }

  lemma DivMod(d: nat, unit: nat, r: nat)
    requires r < unit
    ensures (d * unit + r) / unit == d && (d * unit + r) % unit == r
  {
    var x := d * unit + r;
    Product(d, unit);
    Quotient(x, unit);
    OneQuotient(x / unit, x % unit, d, r, unit);
  }

  lemma Product(d: nat, unit: nat)
    ensures d * unit >= 0
  {
  }

  lemma {:induction false} ToThenFrom(x: nat, width: nat)
    requires x < Pow256(width)
    ensures FromBigEndian(ToBigEndian(x, width)) == x
  {
    if width > 0 {
      var unit := Pow256(width - 1);
      DigitBound(x, width);
      ToThenFrom(x % unit, width - 1);
      var b := ToBigEndian(x, width);
      assert b[1..] == ToBigEndian(x % unit, width - 1);
      Quotient(x, unit);
    }
  }

  lemma {:induction false} FromThenTo(b: Bytes)
    ensures FromBigEndian(b) < Pow256(|b|) && ToBigEndian(FromBigEndian(b), |b|) == b
  {
    FromBound(b);
    if b != [] {
      FromThenTo(b[1..]);
      FromBound(b[1..]);
      DivMod(b[0] as nat, Pow256(|b| - 1), FromBigEndian(b[1..]));
      assert b == [b[0]] + b[1..];
    }
  }

  // ---- lexicographic order ----

  predicate Less(a: Bytes, b: Bytes) {
    if b == [] then false
    else if a == [] then true
    else a[0] < b[0] || (a[0] == b[0] && Less(a[1..], b[1..]))
  }

  predicate AtMost(a: Bytes, b: Bytes) {
    a == b || Less(a, b)
  }

  lemma {:induction false} LessTrichotomy(a: Bytes, b: Bytes)
    ensures !(Less(a, b) && Less(b, a)) && (a == b ==> !Less(a, b)) && (a == b || Less(a, b) || Less(b, a))
  {
    if a != [] && b != [] {
      LessTrichotomy(a[1..], b[1..]);
      assert a == [a[0]] + a[1..] && b == [b[0]] + b[1..];
    }
  }

  lemma {:induction false} LessTransitive(a: Bytes, b: Bytes, c: Bytes)
    requires Less(a, b) && Less(b, c)
    ensures Less(a, c)
  {
    if a != [] && a[0] == b[0] == c[0] {
      LessTransitive(a[1..], b[1..], c[1..]);
    }
  }

  /** Big-endian numbers of one width compare like their values. */
  lemma {:induction false} OrderAgrees(a: Bytes, b: Bytes)
    requires |a| == |b|
    ensures Less(a, b) <==> FromBigEndian(a) < FromBigEndian(b)
  {
    if a != [] {
      OrderAgrees(a[1..], b[1..]);
      FromBound(a[1..]);
      FromBound(b[1..]);
      var unit := Pow256(|a| - 1);
      if a[0] < b[0] {
        Multiples(a[0] as int, b[0] as int, unit);
      } else if b[0] < a[0] {
        Multiples(b[0] as int, a[0] as int, unit);
      }
    }
  }

  // ---- entry keys ----

  lemma Width()
    ensures Pow256(8) == U64_MAX + 1
  {
    assert Pow256(4) == 0x1_0000_0000;
    assert Pow256(6) == 0x1_0000_0000_0000;
  }

  function EntryKey(k: nat): (key: Bytes)
    requires k <= U64_MAX
  {
    Width();
    [ENTRY_PREFIX] + ToBigEndian(k, 8)
  }

  function SeqOf(key: Bytes): nat
    requires |key| >= 9
  {
    FromBigEndian(key[1..9])
  }

  predicate IsEntry(key: Bytes) {
    |key| == 9 && key[0] == ENTRY_PREFIX
  }

  /** Entry keys and seqs are in one-to-one correspondence. */
  lemma KeyRoundTrip(k: nat)
    requires k <= U64_MAX
    ensures IsEntry(EntryKey(k)) && SeqOf(EntryKey(k)) == k
  {
    Width();
    ToThenFrom(k, 8);
    assert EntryKey(k)[1..9] == ToBigEndian(k, 8);
  }

  lemma SeqRoundTrip(key: Bytes)
    requires IsEntry(key)
    ensures SeqOf(key) <= U64_MAX && EntryKey(SeqOf(key)) == key
  {
    Width();
    FromThenTo(key[1..9]);
    assert key == [key[0]] + key[1..9];
  }

  /** The layout on disk: meta at 0x00, and each entry at 0x01 followed by eight bytes. */
  lemma Layout(k: nat)
    requires k <= U64_MAX
    ensures META_KEY == [0] && ENTRY_LOW == [1]
    ensures EntryKey(k)[..1] == [1] && |EntryKey(k)| == 9
  {
    KeyRoundTrip(k);
  }

  /** The store's byte order of entry keys is the numeric order of their seqs. */
  lemma KeyOrder(j: nat, k: nat)
    requires j <= U64_MAX && k <= U64_MAX
    ensures Less(EntryKey(j), EntryKey(k)) <==> j < k
  {
    Width();
    var a, b := ToBigEndian(j, 8), ToBigEndian(k, 8);
    OrderAgrees(a, b);
    ToThenFrom(j, 8);
    ToThenFrom(k, 8);
    assert EntryKey(j)[1..] == a && EntryKey(k)[1..] == b;
  }

  /** Meta and the scan's start sort below every entry, and no entry sorts above `ENTRY_HIGH`. */
  lemma KeyBounds(k: nat)
    requires k <= U64_MAX
    ensures Less(META_KEY, ENTRY_LOW) && Less(ENTRY_LOW, EntryKey(k)) && Less(META_KEY, EntryKey(k))
    ensures AtMost(EntryKey(k), ENTRY_HIGH) && !IsEntry(META_KEY) && !IsEntry(ENTRY_LOW)
  {
    KeyRoundTrip(k);
    assert EntryKey(k)[1..] != [];
    HighestKey();
    if k < U64_MAX {
      KeyOrder(k, U64_MAX);
    }
  }

  lemma {:induction false} AllOnes(width: nat)
    ensures FromBigEndian(seq(width, _ => 255)) == Pow256(width) - 1
  {
    if width > 0 {
      AllOnes(width - 1);
      var ones: Bytes := seq(width, _ => 255);
      assert ones[1..] == seq(width - 1, _ => 255);
    }
  }

  lemma HighestKey()
    ensures EntryKey(U64_MAX) == ENTRY_HIGH
  {
    Width();
    AllOnes(8);
    assert ENTRY_HIGH[1..9] == seq(8, _ => 255);
    SeqRoundTrip(ENTRY_HIGH);
  }
}
