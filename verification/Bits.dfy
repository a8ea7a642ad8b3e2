/** Unsigned 32-bit arithmetic and the bit tricks the rings rest on.

    A `u32` is an integer below 2^32. `BitAnd` is the machine's `&`, defined bit by bit, so that the
    facts about masks below are theorems and not assumptions about a built-in operator. */
module Bits {

  const WORD: nat := 0x1_0000_0000

  type u32 = x: int | 0 <= x < 0x1_0000_0000

  /** A position of any size as a u32 cursor holds it. */
  function Wrap(n: nat): u32 {
    n % WORD
  }

  /** The slot of a ring of this size that a position falls on. */
  function Slot(n: nat, size: nat): (r: nat)
    requires size > 0
    ensures r < size
  {
    n % size
  }

  /** u32 addition as compiled in release mode: it wraps. */
  function WrapAdd(a: u32, n: nat): u32 {
    (a + n) % WORD
  }

  /** u32 subtraction, wrapping. */
  function WrapSub(a: u32, b: u32): u32 {
    (a - b) % WORD
  }

  function Min(a: nat, b: nat): nat {
    if a < b then a else b
  }

  function Pow2(k: nat): (r: nat)
    ensures r >= 1
  {
    if k == 0 then 1 else 2 * Pow2(k - 1)
  }

  /** Bitwise AND of two non-negative integers. */
  function BitAnd(a: nat, b: nat): nat {
    if a == 0 || b == 0 then 0 else (if a % 2 == 1 && b % 2 == 1 then 1 else 0) + 2 * BitAnd(a / 2, b / 2)
  }

  /** The guard every constructor applies to its ring sizes. */
  predicate IsPowOfTwo(val: u32) {
    val != 0 && BitAnd(val, val - 1) == 0
  }

  lemma {:induction false} BitAndSelf(a: nat)
    ensures BitAnd(a, a) == a
  {
    if a > 0 {
      BitAndSelf(a / 2);
    }
  }

  /** Clearing the lowest set bit leaves nothing exactly for the powers of two. */
  lemma {:induction false} LowestBitCleared(v: nat, bits: nat)
    requires 0 < v < Pow2(bits)
    ensures BitAnd(v, v - 1) == 0 <==> PowerBelow(v, bits)
  {
    if v == 1 {
      assert v == Pow2(0);
    } else if v % 2 == 1 {
      // The lowest bit is set, so v - 1 keeps every other bit of v.
      var h := v / 2;
      assert (v - 1) / 2 == h && h > 0;
      BitAndSelf(h);
      assert BitAnd(v, v - 1) == 2 * BitAnd(h, h) == 2 * h;
      forall k: nat ensures v != Pow2(k) {
      }
    } else {
      var h := v / 2;
      assert (v - 1) / 2 == h - 1 && h > 0;
      assert BitAnd(v, v - 1) == 2 * BitAnd(h, h - 1);
      LowestBitCleared(h, bits - 1);
      PowersOfEven(h, bits);
    }
  }

  lemma PowersOfEven(h: nat, bits: nat)
    requires h > 0 && bits > 0
    ensures PowerBelow(2 * h, bits) <==> PowerBelow(h, bits - 1)
  {
    if k: nat :| k < bits && 2 * h == Pow2(k) {
      assert k > 0 && h == Pow2(k - 1);
    }
    if k: nat :| k < bits - 1 && h == Pow2(k) {
      var j := k + 1;
      assert Pow2(j) == 2 * h;
      assert PowerBelow(2 * h, bits);
    }
  }

  lemma Pow2Of32()
    ensures Pow2(32) == WORD
  {
    assert Pow2(8) == 256;
    Pow2Add(8, 8);
    Pow2Add(16, 16);
  }

  lemma {:induction false} Pow2Add(a: nat, b: nat)
    ensures Pow2(a + b) == Pow2(a) * Pow2(b)
  {
    if a > 0 {
      var x, y := Pow2(a - 1), Pow2(b);
      assert Pow2(a) == 2 * x;
      Pow2Add(a - 1, b);
      assert Pow2(a + b) == 2 * Pow2(a - 1 + b);
      hide Pow2;
      TwiceProduct(x, y);
    }
  }

  lemma TwiceProduct(x: nat, y: nat)
    ensures 2 * (x * y) == (2 * x) * y
  {
  }

  /** `v` is 2^k for some k below `bits`. */
  ghost predicate PowerBelow(v: nat, bits: nat) {
    exists k: nat :: k < bits && v == Pow2(k)
  }

  /** `is_pow_of_two` accepts exactly the u32 powers of two. */
  lemma IsPowOfTwoExact(val: u32)
    ensures IsPowOfTwo(val) <==> PowerBelow(val, 32)
  {
    Pow2Of32();
    if val > 0 {
      LowestBitCleared(val, 32);
    }
  }

  /** Masking with 2^k - 1 is the remainder modulo 2^k. */
  lemma {:induction false} MaskIsRemainder(a: nat, k: nat)
    ensures BitAnd(a, Pow2(k) - 1) == a % Pow2(k)
  {
    if a == 0 {
      ZeroMasked(Pow2(k));
    } else if k == 0 {
      assert Pow2(k) == 1 && BitAnd(a, 0) == 0;
    } else {
      var h := Pow2(k - 1);
      assert Pow2(k) == 2 * h;
      MaskIsRemainder(a / 2, k - 1);
      hide BitAnd, Pow2;
      MaskDoubles(a, h);
    }
  }

  lemma ZeroMasked(d: nat)
    requires d >= 1
    ensures BitAnd(0, d - 1) == 0 == 0 % d
  {
  }

  lemma MaskDoubles(a: nat, h: nat)
    requires a > 0 && h >= 1
    requires BitAnd(a / 2, h - 1) == (a / 2) % h
    ensures BitAnd(a, 2 * h - 1) == a % (2 * h)
  {
    hide BitAnd;
    BitAndOddMask(a, h);
    RemainderByHalves(a, h);
  }

  lemma BitAndOddMask(a: nat, h: nat)
    requires a > 0 && h >= 1
    ensures BitAnd(a, 2 * h - 1) == a % 2 + 2 * BitAnd(a / 2, h - 1)
  {
    var m := 2 * h - 1;
    assert m / 2 == h - 1 && m % 2 == 1;
  }

  lemma RemainderByHalves(a: nat, h: nat)
    requires h >= 1
    ensures a % (2 * h) == a % 2 + 2 * ((a / 2) % h)
  {
    var q, r := (a / 2) / h, (a / 2) % h;
    assert a == 2 * (q * h + r) + a % 2 == (2 * h) * q + (2 * r + a % 2);
    RemainderUnique(a, 2 * h, q, 2 * r + a % 2);
  }

  lemma MulBound(d: nat, m: int)
    ensures m >= 1 ==> d * m >= d
    ensures m <= -1 ==> d * m + d <= 0
  {
    if m >= 1 {
      assert d * m == d * (m - 1) + d;
    } else if m <= -1 {
      assert d * m == d * (m + 1) - d;
    }
  }

  lemma RemainderUnique(a: int, d: int, q: int, r: int)
    requires d > 0 && 0 <= r < d && a == d * q + r
    ensures a % d == r && a / d == q
  {
    var q', r' := a / d, a % d;
    assert a == d * q' + r';
    assert d * (q' - q) == d * q' - d * q;
    MulBound(d, q' - q);
  }

  /** Reducing a position to 32 bits first does not change which slot it names. */
  lemma WrapKeepsRemainder(n: nat, k: nat)
    requires k <= 32
    ensures (n % WORD) % Pow2(k) == n % Pow2(k)
  {
    Pow2Of32();
    Pow2Add(k, 32 - k);
    RemainderOfRemainder(n, Pow2(k), Pow2(32 - k));
  }

  lemma RemainderOfRemainder(n: nat, d: nat, m: nat)
    requires d > 0 && m > 0
    requires d * m > 0
    ensures (n % (d * m)) % d == n % d
  {
    var w := d * m;
    var q, r := n / w, n % w;
    var q2, r2 := r / d, r % d;
    assert n == w * q + r;
    assert r == d * q2 + r2;
    MulRegroup(d, m, q, q2);
    RemainderUnique(n, d, m * q + q2, r2);
  }

  lemma MulRegroup(d: nat, m: nat, q: nat, q2: nat)
    ensures (d * m) * q + d * q2 == d * (m * q + q2)
  {
    assert (d * m) * q == d * (m * q);
  }

  /** The slot a free-running cursor names: for a power-of-two size, masking the wrapped cursor
      gives the true position modulo the size, for every position however large. */
  lemma SlotOfCursor(n: nat, size: u32)
    requires size > 0 && IsPowOfTwo(size)
    ensures BitAnd(Wrap(n), size - 1) == Slot(n, size) == n % size
  {
    hide BitAnd, IsPowOfTwo, Pow2;
    IsPowOfTwoExact(size);
    var k: nat :| k < 32 && size == Pow2(k);
    MaskIsRemainder(n % WORD, k);
    WrapKeepsRemainder(n, k);
  }

  /** Positions less than one ring apart never share a slot. */
  lemma SlotsDistinct(i: nat, j: nat, size: nat)
    requires 0 < size && i < j < i + size
    ensures Slot(i, size) != Slot(j, size)
  {
    if i % size == j % size {
      var a, b := i / size, j / size;
      assert i == size * a + i % size;
      assert j == size * b + j % size;
      assert size * (b - a) == size * b - size * a == j - i;
      MulBound(size, b - a);
    }
  }

  /** The main statement about cursors: inside one batch, wrapped and masked cursors name distinct
      slots, and each is the slot of the true position. */
  lemma BatchSlotsInjective(start: nat, size: u32, i: nat, j: nat)
    requires IsPowOfTwo(size) && i < j < size
    ensures BitAnd(WrapAdd(Wrap(start), i), size - 1) == (start + i) % size
    ensures BitAnd(WrapAdd(Wrap(start), i), size - 1) != BitAnd(WrapAdd(Wrap(start), j), size - 1)
  {
    hide BitAnd, IsPowOfTwo, Wrap, WrapAdd;
    WrapAddIsWrap(start, i);
    WrapAddIsWrap(start, j);
    SlotOfCursor(start + i, size);
    SlotOfCursor(start + j, size);
    SlotsDistinct(start + i, start + j, size);
  }

  lemma WrapAddIsWrap(n: nat, d: nat)
    ensures WrapAdd(Wrap(n), d) == Wrap(n + d)
  {
  }

  /** The difference of two wrapped cursors is the true distance when that is below 2^32. */
  lemma WrapSubIsDistance(hi: nat, lo: nat)
    requires lo <= hi < lo + WORD
    ensures WrapSub(Wrap(hi), Wrap(lo)) == hi - lo
  {
  }
}
