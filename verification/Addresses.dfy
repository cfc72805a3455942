/**
 The next free address of a subnet, for cloned cameras. Addresses are numbers
 of 32 bits; the search computes on 64-bit words that wrap around.
 */
module Addresses {
  import opened Common

  const WORD32 := 0x1_0000_0000
  const WORD64 := 0x1_0000_0000_0000_0000

  /** An IPv4 prefix with its host bits cleared, as Masked returns it. */
  datatype Prefix = Prefix(addr: nat, bits: nat) {
    function Size(): (n: nat)
      requires bits <= 32
      ensures n >= 1
    {
      Pow2(32 - bits)
    }

    predicate Valid() { bits <= 32 && addr < WORD32 && Mod(addr, Size()) == 0 }
  }

  lemma {:induction false} Pow2Facts(n: nat)
    ensures Pow2(n) >= 1 && (n <= 32 ==> Pow2(n) <= WORD32) && (n >= 2 ==> Pow2(n) >= 4)
    ensures n == 32 ==> Pow2(n) == WORD32
    ensures n < 32 ==> Pow2(n) * 2 <= WORD32
  {
    assert Pow2(32) == WORD32 by {
      assert Pow2(4) == 16;
      assert Pow2(8) == 256;
      assert Pow2(12) == 4096;
      assert Pow2(16) == 65536;
      assert Pow2(20) == 0x10_0000;
      assert Pow2(24) == 0x100_0000;
      assert Pow2(28) == 0x1000_0000;
    }
    Pow2Grows(0, n);
    if n <= 32 { Pow2Grows(n, 32); }
    if n < 32 { Pow2Grows(n + 1, 32); }
    if n >= 2 { Pow2Grows(2, n); }
  }

  lemma {:induction false} Pow2Sum(a: nat, b: nat)
    ensures Pow2(a + b) == Pow2(a) * Pow2(b)
  {
    if a > 0 {
      Pow2Sum(a - 1, b);
      assert Pow2(a + b) == 2 * Pow2(a - 1 + b) && Pow2(a) == 2 * Pow2(a - 1);
      hide Pow2;
      Associate(2, Pow2(a - 1), Pow2(b));
    }
  }

  // ------------------------------------------------------------ arithmetic

  /** The remainder that is never negative; for a power of two it is what
      masking a word leaves, whatever the sign. */
  function Mod(x: int, m: nat): (r: nat)
    requires m > 0
    ensures r < m
  {
    x % m
  }

  lemma AtLeastOne(d: int, m: nat)
    requires m > 0
    ensures (d >= 1 ==> d * m >= m) && (d <= -1 ==> d * m + m <= 0)
  {
    if d >= 1 { assert (d - 1) * m >= 0; }
    if d <= -1 { assert (-1 - d) * m >= 0; }
  }

  lemma ModUnique(x: int, q: int, m: nat, r: nat)
    requires r < m && x == q * m + r
    ensures Mod(x, m) == r && x / m == q
  {
    var q', r' := x / m, x % m;
    assert x == q' * m + r';
    var d := q - q';
    assert d * m == q * m - q' * m;
    AtLeastOne(d, m);
  }

  lemma ModSplit(x: int, m: nat) returns (q: int)
    requires m > 0
    ensures x == q * m + Mod(x, m)
  {
    q := x / m;
  }

  lemma ModSmall(x: nat, m: nat)
    requires x < m
    ensures Mod(x, m) == x
  {
  }

  lemma ModShift(x: int, k: int, m: nat)
    requires m > 0
    ensures Mod(x + k * m, m) == Mod(x, m)
  {
    hide Mod;
    var q := ModSplit(x, m);
    assert x + k * m == (q + k) * m + Mod(x, m) by { assert (q + k) * m == q * m + k * m; }
    ModUnique(x + k * m, q + k, m, Mod(x, m));
  }

  lemma ModInside(x: int, y: int, m: nat)
    requires m > 0
    ensures Mod(Mod(x, m) + y, m) == Mod(x + y, m)
  {
    hide Mod;
    var q := ModSplit(x, m);
    ModShift(Mod(x, m) + y, q, m);
  }

  /** Wrapping at 64 bits changes nothing modulo the size of a subnet. */
  lemma WrapIsInvisible(x: int, n: nat)
    requires n <= 32
    ensures Mod(Mod(x, WORD64), Pow2(n)) == Mod(x, Pow2(n))
  {
    hide Mod, Pow2;
    Pow2Facts(32);
    Pow2Sum(32, 32);
    Pow2Sum(64 - n, n);
    var k := ModSplit(x, WORD64);
    var m := Pow2(64 - n);
    assert k * WORD64 == (k * m) * Pow2(n) by { Associate(k, m, Pow2(n)); }
    ModShift(Mod(x, WORD64), k * m, Pow2(n));
  }

  lemma Associate(a: int, b: int, c: int)
    ensures a * (b * c) == (a * b) * c
  {
  }

  // ------------------------------------------------------------- broadcast

  function BitOr(a: nat, b: nat): nat
    decreases a + b
  {
    if a == 0 && b == 0 then 0
    else 2 * BitOr(a / 2, b / 2) + (if a % 2 == 1 || b % 2 == 1 then 1 else 0)
  }

  /** The broadcast address, with 32-bit words: shifting by 32 gives zero. */
  function LastAddr(p: Prefix): nat
    requires p.Valid()
  {
    BitOr(p.addr, Mod(Mod(Pow2(32 - p.bits), WORD32) - 1, WORD32))
  }

  lemma HalveMultiple(a: nat, h: nat)
    requires h > 0 && Mod(a, 2 * h) == 0
    ensures a % 2 == 0 && Mod(a / 2, h) == 0
  {
    var q := a / (2 * h);
    assert a == q * (2 * h);
    assert a == 2 * (q * h);
    ModUnique(a / 2, q, h, 0);
  }

  lemma {:induction false} OrFillsLowBits(a: nat, n: nat)
    requires Mod(a, Pow2(n)) == 0
    ensures BitOr(a, Pow2(n) - 1) == a + (Pow2(n) - 1)
    decreases n
  {
    if n == 0 {
      OrZero(a);
    } else {
      hide Mod;
      var h := Pow2(n - 1);
      HalveMultiple(a, h);
      var b := Pow2(n) - 1;
      assert b / 2 == h - 1 && b % 2 == 1;
      OrFillsLowBits(a / 2, n - 1);
      assert BitOr(a, b) == 2 * BitOr(a / 2, b / 2) + 1;
    }
  }

  lemma {:induction false} OrZero(a: nat)
    ensures BitOr(a, 0) == a
  {
    if a > 0 { OrZero(a / 2); }
  }

  /** The last address of a prefix: the one behind all its hosts. */
  lemma LastAddrIsLast(p: Prefix)
    requires p.Valid()
    ensures LastAddr(p) == p.addr + p.Size() - 1
  {
    hide Mod, BitOr, Pow2;
    var n := Pow2(32 - p.bits);
    assert p.Size() == n;
    Pow2Facts(32 - p.bits);
    OrFillsLowBits(p.addr, 32 - p.bits);
    HostMask(n);
  }

  lemma HostMask(n: nat)
    requires 1 <= n <= WORD32
    ensures Mod(Mod(n, WORD32) - 1, WORD32) == n - 1
  {
    hide Mod;
    if n == WORD32 {
      ModUnique(n, 1, WORD32, 0);
      ModUnique(-1, -1, WORD32, WORD32 - 1);
    } else {
      ModSmall(n, WORD32);
      ModSmall(n - 1, WORD32);
    }
  }

  // ----------------------------------------------------------------- search

  /** A host address: in the subnet, neither network nor broadcast address. */
  predicate IsHost(p: Prefix, a: int)
    requires p.Valid()
  {
    p.addr < a < p.addr + p.Size() - 1
  }

  /** How many steps forward from one address another one lies, around the
      subnet. */
  function Distance(p: Prefix, from: nat, a: int): nat
    requires p.Valid()
  {
    Mod(a - from, p.Size())
  }

  /** Whether an address is another host nobody uses. */
  predicate Free(p: Prefix, from: nat, used: set<int>, a: int)
    requires p.Valid()
  {
    IsHost(p, a) && Distance(p, from, a) != 0 && a !in used
  }

  /** The i-th candidate of the search, on wrapping words. */
  function Offset(p: Prefix, from: nat, i: nat): (off: nat)
    requires p.Valid()
    ensures off < p.Size()
  {
    Mod(Mod(from - p.addr + i, WORD64), p.Size())
  }

  /** The i-th candidate lies i steps away, and is the only address that does. */
  lemma CandidateDistance(p: Prefix, from: nat, i: nat)
    requires p.Valid() && i < p.Size()
    ensures Distance(p, from, p.addr + Offset(p, from, i)) == i
    ensures forall a | p.addr <= a < p.addr + p.Size() && Distance(p, from, a) == i :: a == p.addr + Offset(p, from, i)
  {
    hide Mod;
    var n := p.Size();
    WrapIsInvisible(from - p.addr + i, 32 - p.bits);
    assert Offset(p, from, i) == Mod(from - p.addr + i, n);
    ModInside(from - p.addr + i, p.addr - from, n);
    ModSmall(i, n);
    forall a | p.addr <= a < p.addr + n && Distance(p, from, a) == i ensures a == p.addr + Offset(p, from, i) {
      ModInside(a - from, from - p.addr, n);
      ModSmall(a - p.addr, n);
    }
  }

  /** The first free host after the start in cyclic order; none exactly when
      every other host address is used. */
  method NextHost(subnet: Prefix, from: nat, used: set<int>) returns (r: Option<nat>)
    requires subnet.Valid() && from < WORD32
    ensures r.Some? ==> Free(subnet, from, used, r.value) && r.value < WORD32
    ensures r.Some? ==> forall a | Free(subnet, from, used, a) ::
                          Distance(subnet, from, r.value) <= Distance(subnet, from, a)
    ensures r == None <==> forall a :: !Free(subnet, from, used, a)
  {
    hide Mod, Distance, Offset, Pow2;
    var size := subnet.Size();
    if size < 4 {
      SmallSubnet(subnet);
      return None;
    }
    NoFartherThanSize(subnet, from);
    var i: nat := 1;
    while i < size
      invariant 1 <= i <= size
      invariant forall a | Free(subnet, from, used, a) :: i <= Distance(subnet, from, a)
    {
      CandidateDistance(subnet, from, i);
      var off := Offset(subnet, from, i);
      if !(off == 0 || off == size - 1) {
        var v := subnet.addr + off;
        if v !in used {
          InRange(subnet);
          return Some(v);
        }
      }
      i := i + 1;
    }
    return None;
  }

  lemma NoFartherThanSize(p: Prefix, from: nat)
    requires p.Valid()
    ensures forall a :: Distance(p, from, a) < p.Size()
    ensures forall a | Distance(p, from, a) != 0 :: 1 <= Distance(p, from, a)
  {
  }

  lemma SmallSubnet(p: Prefix)
    requires p.Valid() && p.Size() < 4
    ensures forall a :: !IsHost(p, a)
  {
    if p.bits < 31 { Pow2Facts(32 - p.bits); }
    assert Pow2(1) == 2 && Pow2(0) == 1;
  }

  lemma InRange(p: Prefix)
    requires p.Valid()
    ensures p.addr + p.Size() <= WORD32
  {
    hide Mod, Pow2;
    Pow2Facts(32);
    var n, k := p.Size(), Pow2(p.bits);
    assert n == Pow2(32 - p.bits);
    Pow2Sum(p.bits, 32 - p.bits);
    var q := ModSplit(p.addr, n);
    assert (k - q) * n == WORD32 - q * n > 0;
    AtLeastOne(k - q, n);
  }

  /** For the camera's own address the wrap-around never shows, and the
      address found is a different one. */
  lemma OtherThanStart(p: Prefix, from: nat, a: nat, used: set<int>)
    requires p.Valid() && p.addr <= from < p.addr + p.Size() && IsHost(p, a)
    ensures Distance(p, from, a) == (if a >= from then a - from else a - from + p.Size())
    ensures Free(p, from, used, a) <==> a != from && a !in used
  {
    hide Mod;
    var n := p.Size();
    if a < from {
      ModShift(a - from, 1, n);
      ModSmall(a - from + n, n);
    } else {
      ModSmall(a - from, n);
    }
  }
}
