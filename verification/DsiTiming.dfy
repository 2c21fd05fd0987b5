/** Porch arithmetic of the display: a new refresh rate, or a new bit clock at the same refresh rate, is
    absorbed by one front porch. Fields are 32-bit unsigned; every truncation of the driver is written out. */
module DsiTiming {

  import opened Common

  const TWO_64: int := 0x1_0000_0000_0000_0000
  const TWO_31: int := 0x8000_0000
  const TWO_32: int := 0x1_0000_0000

  /** Bits per symbol and symbols per clock of a C-PHY. */
  const BITS_PER_SYMBOL: nat := 16
  const NUM_OF_SYMBOLS: nat := 7

  type u64 = n: nat | n < TWO_64

  function U64(x: int): (r: nat)
    ensures r < TWO_64
    ensures 0 <= x < TWO_64 ==> r == x
  {
    x % TWO_64
  }

  function U32(x: int): (r: nat)
    ensures r < TWO_32
    ensures 0 <= x < TWO_32 ==> r == x
  {
    x % TWO_32
  }

  /** A 32-bit pattern read as a signed value. */
  function S32(x: int): (r: int)
    ensures -TWO_31 <= r < TWO_31
    ensures -TWO_31 <= x < TWO_31 ==> r == x
  {
    var u := x % TWO_32;
    if u < TWO_31 then u else u - TWO_32
  }

  function Abs(x: int): nat { if x < 0 then -x else x }

  /** n / d is the one q that these two inequalities describe. */
  ghost predicate IsQuotient(q: int, n: int, d: int) { d * q <= n < d * (q + 1) }

  lemma QuotientIs(n: nat, d: nat)
    requires d > 0
    ensures IsQuotient(n / d, n, d)
  {
  }

  lemma QuotientUnique(q: int, r: int, n: int, d: int)
    requires d > 0 && IsQuotient(q, n, d) && IsQuotient(r, n, d)
    ensures q == r
  {
    if q < r {
      Times(d, q + 1, r);
    }
    if r < q {
      Times(d, r + 1, q);
    }
  }

  lemma Times(d: nat, a: int, b: int)
    requires a <= b
    ensures d * a <= d * b
  {
  }

  /** Non-negative quotient by a positive number. */
  function Quot(n: nat, d: nat): (q: nat)
    requires d > 0
    ensures IsQuotient(q, n, d)
  {
    SmallerQuotient(n, d);
    QuotientIs(n, d);
    n / d
  }

  /** The kernel's x * numer / denom, split so that the product is formed on the remainder only; each
      product is a 32-bit one. */
  function MultFrac(x: nat, numer: nat, denom: nat): nat
    requires denom > 0
  {
    U32(U32(Quot(x, denom) * numer) + Quot(U32(Rem(x, denom) * numer), denom))
  }

  function Rem(x: nat, d: nat): (r: nat)
    requires d > 0
    ensures r < d && x == Quot(x, d) * d + r
  {
    x % d
  }

  /** The product on the remainder fits in 32 bits. */
  predicate SplitFits(x: nat, numer: nat, denom: nat)
    requires denom > 0
  {
    Rem(x, denom) * numer < TWO_32
  }

  /** mult_frac() of 32-bit factors is the floor of the product, modulo 2^32, exactly when the product on
      the remainder fits. */
  lemma MultFracExactly(x: nat, numer: nat, denom: nat)
    requires 0 < denom < TWO_32 && numer < TWO_32
    ensures MultFrac(x, numer, denom) == U32(Quot(x * numer, denom)) <==> SplitFits(x, numer, denom)
  {
    var q, r := Quot(x, denom), Rem(x, denom);
    var a, b := q * numer, r * numer;
    ProductIsNat(q, numer);
    ProductIsNat(r, numer);
    SplitProduct(q, r, numer, denom, x);
    var f, g := Quot(b, denom), Quot(U32(b), denom);
    Shifted(a, f, b, denom);
    QuotientUnique(a + f, Quot(x * numer, denom), x * numer, denom);
    RemainderShare(r, numer, denom, f);
    KeptQuotient(b, denom, f, g);
    SameModulo(a, f, g);
  }

  lemma ProductIsNat(a: nat, b: nat)
    ensures a * b >= 0
  {
  }

  lemma RemainderShare(r: nat, n: nat, d: nat, f: int)
    requires r < d && IsQuotient(f, r * n, d)
    ensures f <= n && (n > 0 ==> f < n)
  {
    Times(n, r, d);
    if f > n {
      Times(d, n + 1, f);
    }
    if f == n && n > 0 {
      Times(n, r + 1, d);
    }
  }

  /** Cutting a number to 32 bits keeps its quotient only if nothing is cut off. */
  lemma KeptQuotient(b: nat, d: nat, f: int, g: int)
    requires 0 < d < TWO_32 && IsQuotient(f, b, d) && IsQuotient(g, U32(b), d)
    ensures 0 <= g <= f && (f == g <==> b < TWO_32)
  {
    QuotientBounds(g, U32(b), d);
    if b < TWO_32 {
      QuotientUnique(f, g, b, d);
    } else {
      assert b - U32(b) >= TWO_32;
      if f <= g {
        Times(d, f + 1, g + 1);
      }
    }
  }

  /** Two 32-bit sums agree exactly when the small summands do. */
  lemma SameModulo(a: nat, f: nat, g: nat)
    requires g <= f < TWO_32
    ensures U32(U32(a) + g) == U32(a + f) <==> f == g
  {
  }

  lemma SmallerQuotient(b: nat, d: nat)
    requires d > 0
    ensures 0 <= b / d <= b
  {
    QuotientIs(b, d);
    QuotientBounds(b / d, b, d);
  }

  lemma QuotientBounds(q: int, n: nat, d: nat)
    requires d > 0 && IsQuotient(q, n, d)
    ensures 0 <= q <= n
  {
    if q < 0 {
      Times(d, q + 1, 0);
    } else {
      Times(q, 1, d);
    }
  }

  lemma SplitProduct(q: nat, r: nat, n: nat, d: nat, x: nat)
    requires d > 0 && x == q * d + r
    ensures x * n == d * (q * n) + r * n
    ensures q * n + r * n <= x * n && q * n >= 0 && r * n >= 0
  {
    assert x * n == q * d * n + r * n;
    assert q * d * n == d * (q * n);
    assert q * n >= 0;
    assert d * (q * n) >= q * n;
  }

  lemma Shifted(a: nat, f: nat, n: nat, d: nat)
    requires IsQuotient(f, n, d)
    ensures IsQuotient(a + f, d * a + n, d)
  {
  }

  /** abs() of an unsigned difference reads it as a signed value. */
  function Diff(a: nat, b: nat): nat { Abs(S32(U32(a - b))) }

  /** A total that keeps the line rate: off by less than one line at the new refresh rate, short of the old
      rate when the refresh slows down and beyond it when it speeds up. */
  ghost predicate KeepsLineRate(oldFps: int, newFps: int, oldTotal: int, newTotal: int)
  {
    var drift := newTotal * newFps - oldTotal * oldFps;
    if oldFps > newFps then -newFps < drift <= 0 else 0 <= drift < newFps
  }

  /** No other total keeps the line rate in that sense. */
  lemma LineRateUnique(oldFps: nat, newFps: nat, oldTotal: int, a: int, b: int)
    requires KeepsLineRate(oldFps, newFps, oldTotal, a) && KeepsLineRate(oldFps, newFps, oldTotal, b)
    ensures a == b
  {
    if a < b {
      Times(newFps, a + 1, b);
    }
    if b < a {
      Times(newFps, b + 1, a);
    }
  }

  /** Adding or removing the rounded share of the total keeps the line rate. */
  lemma AddedKeepsLineRate(oldFps: nat, newFps: nat, total: nat, add: int)
    requires IsQuotient(add, total * Abs(oldFps - newFps), newFps)
    ensures KeepsLineRate(oldFps, newFps, total, if oldFps > newFps then total + add else total - add)
  {
    if oldFps > newFps {
      assert total * (oldFps - newFps) == total * oldFps - total * newFps;
      assert (total + add) * newFps == total * newFps + newFps * add;
    } else {
      assert total * (newFps - oldFps) == total * newFps - total * oldFps;
      assert (total - add) * newFps == total * newFps - newFps * add;
    }
  }

  /** The lines other than the front porch decide whether a total leaves room for one. */
  lemma RoomForPorch(oldFps: nat, newFps: nat, oldTotal: nat, newTotal: int, fixed: int)
    requires KeepsLineRate(oldFps, newFps, oldTotal, newTotal) && newFps > 0
    requires fixed <= oldTotal
    ensures fixed <= newTotal <==> (fixed - 1) * newFps < oldTotal * oldFps
  {
    if oldFps > newFps {
      if newTotal < fixed {
        Times(newFps, newTotal + 1, oldTotal);
        Times(oldTotal, newFps, oldFps);
      }
    }
    if fixed <= newTotal {
      Times(newFps, fixed - 1, newTotal - 1);
    } else {
      Times(newFps, newTotal, fixed - 1);
    }
  }

  /** The whole lines that a change of the refresh rate is worth. */
  function Worth(oldFps: nat, newFps: nat, bTotal: nat): nat
    requires newFps > 0
  {
    ProductIsNat(bTotal, Abs(oldFps - newFps));
    Quot(bTotal * Abs(oldFps - newFps), newFps)
  }

  /** The front porch as plain arithmetic has it. */
  function TruePorch(oldFps: nat, newFps: nat, bTotal: nat, bFp: nat): int
    requires newFps > 0
  {
    if oldFps > newFps then bFp + Worth(oldFps, newFps, bTotal) else bFp - Worth(oldFps, newFps, bTotal)
  }

  /** The front porch as the driver's 32-bit arithmetic has it. */
  function NewPorch(oldFps: nat, newFps: nat, bTotal: nat, bFp: nat): int
    requires newFps > 0
  {
    var addPorches := S32(MultFrac(bTotal, Diff(oldFps, newFps), newFps));
    if oldFps > newFps then S32(bFp + addPorches) else S32(bFp - addPorches)
  }

  /** What a caller can check before the change: the product on the remainder fits, and so does the porch. */
  predicate PorchFits(oldFps: nat, newFps: nat, bTotal: nat, bFp: nat)
    requires newFps > 0
  {
    SplitFits(bTotal, Abs(oldFps - newFps), newFps) && 0 <= TruePorch(oldFps, newFps, bTotal, bFp) < TWO_31
  }

  lemma TruePorchKeepsLineRate(oldFps: nat, newFps: nat, bTotal: nat, bFp: nat)
    requires newFps > 0
    ensures KeepsLineRate(oldFps, newFps, bTotal, bTotal - bFp + TruePorch(oldFps, newFps, bTotal, bFp))
  {
    AddedKeepsLineRate(oldFps, newFps, bTotal, Worth(oldFps, newFps, bTotal));
    hide KeepsLineRate, Worth;
  }

  /** The driver's porch is the true one, modulo 2^32, exactly when the product on the remainder fits. */
  lemma NewPorchExactly(oldFps: u32, newFps: u32, bTotal: nat, bFp: nat)
    requires newFps > 0 && Abs(oldFps - newFps) <= TWO_31
    ensures NewPorch(oldFps, newFps, bTotal, bFp) == S32(TruePorch(oldFps, newFps, bTotal, bFp)) <==>
      SplitFits(bTotal, Abs(oldFps - newFps), newFps)
  {
    hide MultFrac, Worth, SplitFits, Diff, Abs, S32, U32;
    DiffIs(oldFps, newFps);
    WorthExactly(oldFps, newFps, bTotal);
    SignedSums(bFp, MultFrac(bTotal, Diff(oldFps, newFps), newFps), Worth(oldFps, newFps, bTotal));
  }

  lemma DiffIs(a: u32, b: u32)
    requires Abs(a - b) <= TWO_31
    ensures Diff(a, b) == Abs(a - b)
  {
  }

  lemma WorthExactly(oldFps: u32, newFps: u32, bTotal: nat)
    requires newFps > 0
    ensures MultFrac(bTotal, Abs(oldFps - newFps), newFps) == U32(Worth(oldFps, newFps, bTotal)) <==>
      SplitFits(bTotal, Abs(oldFps - newFps), newFps)
    ensures MultFrac(bTotal, Abs(oldFps - newFps), newFps) < TWO_32
  {
    MultFracExactly(bTotal, Abs(oldFps - newFps), newFps);
  }

  /** Equal modulo 2^32 means a whole number of turns apart. */
  lemma Turns(x: int, y: int, k: int)
    requires x == y + TWO_32 * k
    ensures U32(x) == U32(y)
  {
  }

  lemma TurnsApart(x: int, y: int) returns (k: int)
    requires U32(x) == U32(y)
    ensures x == y + TWO_32 * k
  {
    k := x / TWO_32 - y / TWO_32;
  }

  lemma SignedTurns(x: int) returns (k: int)
    ensures S32(x) == x + TWO_32 * k
  {
    k := if x % TWO_32 < TWO_31 then -(x / TWO_32) else -(x / TWO_32) - 1;
  }

  lemma SignedSame(x: int, y: int)
    ensures S32(x) == S32(y) <==> U32(x) == U32(y)
  {
  }

  /** Adding to both sides keeps them equal, or apart, modulo 2^32. */
  lemma SameSums(b: int, x: int, y: int)
    ensures U32(b + x) == U32(b + y) <==> U32(x) == U32(y)
    ensures U32(b - x) == U32(b - y) <==> U32(x) == U32(y)
  {
    hide U32;
    if U32(x) == U32(y) {
      var k := TurnsApart(x, y);
      Turns(b + x, b + y, k);
      Turns(b - x, b - y, -k);
    }
    if U32(b + x) == U32(b + y) {
      var k := TurnsApart(b + x, b + y);
      Turns(x, y, k);
    }
    if U32(b - x) == U32(b - y) {
      var k := TurnsApart(b - x, b - y);
      Turns(x, y, -k);
    }
  }

  lemma SignedSums(b: nat, m: nat, e: nat)
    requires m < TWO_32
    ensures S32(b + S32(m)) == S32(b + e) <==> m == U32(e)
    ensures S32(b - S32(m)) == S32(b - e) <==> m == U32(e)
  {
    var k := SignedTurns(m);
    Turns(S32(m), m, k);
    hide S32, U32;
    SignedSame(b + S32(m), b + e);
    SignedSame(b - S32(m), b - e);
    SameSums(b, S32(m), e);
  }

  /** A porch that is reported as possible keeps the line rate exactly when nothing was truncated. */
  lemma PorchExactly(oldFps: u32, newFps: u32, bTotal: nat, bFp: nat)
    requires newFps > 0 && Abs(oldFps - newFps) <= TWO_31 && NewPorch(oldFps, newFps, bTotal, bFp) >= 0
    ensures KeepsLineRate(oldFps, newFps, bTotal, bTotal - bFp + NewPorch(oldFps, newFps, bTotal, bFp)) <==>
      PorchFits(oldFps, newFps, bTotal, bFp)
  {
    var porch, exact := NewPorch(oldFps, newFps, bTotal, bFp), TruePorch(oldFps, newFps, bTotal, bFp);
    assert -TWO_31 <= porch < TWO_31;
    NewPorchExactly(oldFps, newFps, bTotal, bFp);
    TruePorchKeepsLineRate(oldFps, newFps, bTotal, bFp);
    hide NewPorch, TruePorch, SplitFits, KeepsLineRate;
    if KeepsLineRate(oldFps, newFps, bTotal, bTotal - bFp + porch) {
      LineRateUnique(oldFps, newFps, bTotal, bTotal - bFp + porch, bTotal - bFp + exact);
    }
  }

  /** Refresh rates below 65536 never truncate the product on the remainder, whatever the total. */
  lemma SmallRatesFit(oldFps: nat, newFps: nat, bTotal: nat)
    requires oldFps < 0x1_0000 && 0 < newFps < 0x1_0000
    ensures SplitFits(bTotal, Abs(oldFps - newFps), newFps)
  {
    var r, d := Rem(bTotal, newFps), Abs(oldFps - newFps);
    Times(d, r, 0xFFFF);
    Times(0xFFFF, d, 0xFFFF);
  }

  /** The porch is possible exactly when the lines other than it leave room. */
  lemma RoomExactly(oldFps: nat, newFps: nat, bTotal: nat, bFp: nat)
    requires newFps > 0 && bFp <= bTotal
    ensures TruePorch(oldFps, newFps, bTotal, bFp) >= 0 <==> (bTotal - bFp - 1) * newFps < bTotal * oldFps
  {
    TruePorchKeepsLineRate(oldFps, newFps, bTotal, bFp);
    var porch := TruePorch(oldFps, newFps, bTotal, bFp);
    hide KeepsLineRate, TruePorch;
    RoomForPorch(oldFps, newFps, bTotal, bTotal - bFp + porch, bTotal - bFp);
  }

  /** The rate is kept exactly when neither the product on the remainder nor the porch leaves 32 bits; when
      the product does not, success is the sign of the porch cut to 32 bits. */
  method CalcFrontPorch(oldFps: u32, newFps: u32, aTotal: u32, bTotal: u32, bFp: u32) returns (rc: int, bFpOut: nat)
    ensures rc == 0 || rc == -EINVAL
    ensures aTotal == 0 || newFps == 0 ==> rc != 0
    ensures bFpOut < TWO_31
    ensures rc == 0 && Abs(oldFps - newFps) <= TWO_31 ==>
      (KeepsLineRate(oldFps, newFps, bTotal, bTotal - bFp + bFpOut) <==> PorchFits(oldFps, newFps, bTotal, bFp))
    ensures aTotal != 0 && newFps != 0 && Abs(oldFps - newFps) <= TWO_31
            && SplitFits(bTotal, Abs(oldFps - newFps), newFps) ==>
      (rc == 0 <==> S32(TruePorch(oldFps, newFps, bTotal, bFp)) >= 0)
  {
    if aTotal == 0 || newFps == 0 {
      return -EINVAL, 0;
    }
    var diff := Diff(oldFps, newFps);
    var addPorches := S32(MultFrac(bTotal, diff, newFps));
    var bFpNew;
    if oldFps > newFps {
      bFpNew := S32(bFp + addPorches);
    } else {
      bFpNew := S32(bFp - addPorches);
    }
    assert bFpNew == NewPorch(oldFps, newFps, bTotal, bFp);
    if Abs(oldFps - newFps) <= TWO_31 {
      NewPorchExactly(oldFps, newFps, bTotal, bFp);
      if bFpNew >= 0 {
        PorchExactly(oldFps, newFps, bTotal, bFp);
      }
    }
    hide *;
    if bFpNew < 0 {
      return -EINVAL, 0;
    }
    return 0, bFpNew;
  }

  /** Where the product on the remainder leaves 32 bits the driver reports success and the line rate is
      lost; by SmallRatesFit() this takes a refresh rate of 65536 or more. */
  lemma PorchTruncated()
    ensures !SplitFits(65536, 65536, 65537)
    ensures NewPorch(1, 65537, 65536, 0) >= 0
    ensures !KeepsLineRate(1, 65537, 65536, 65536 + NewPorch(1, 65537, 65536, 0))
  {
    assert Diff(1, 65537) == 65536;
    assert Quot(65536, 65537) == 0 && Rem(65536, 65537) == 65536;
    assert U32(65536 * 65536) == 0;
    assert Quot(0, 65537) == 0;
    assert MultFrac(65536, 65536, 65537) == 0;
  }

  datatype Dsc = NoDsc | Dsc(pclkPerLine: u32)

  datatype DfpsType = ImmediateVfp | ImmediateHfp | Unsupported

  datatype DynClkType = AdjustHfp | AdjustVfp | Legacy

  datatype PhyType = DPhy | CPhy

  const MAX_CTRLS: nat := 2

  /** One controller's part of a horizontal field. */
  function Share(x: nat, divisor: nat): (r: nat)
    requires divisor > 0
    ensures r <= x
  {
    SmallerQuotient(x, divisor);
    Quot(x, divisor)
  }

  lemma Evenly(x: nat, divisor: nat)
    requires divisor > 0
    ensures x % divisor == 0 ==> divisor * Share(x, divisor) == x
  {
    SmallerQuotient(x, divisor);
  }

  /** A porch given to every controller comes back as each one's share exactly when the field was divided by
      the number of controllers, or there is nothing to share. */
  lemma ShareOfAll(porch: nat, ctrlCount: nat, divisor: nat)
    requires 0 < ctrlCount <= divisor
    ensures Share(porch * ctrlCount, divisor) == porch <==> divisor == ctrlCount || porch == 0
  {
    var n := porch * ctrlCount;
    var q := Share(n, divisor);
    QuotientIs(n, divisor);
    if divisor == ctrlCount || porch == 0 {
      QuotientUnique(q, porch, n, divisor);
    } else if q == porch {
      Times(porch, ctrlCount + 1, divisor);
    }
  }

  /** The same in the driver's 32 bits, which hold the porches of at most two controllers. */
  lemma SharedBack(porch: nat, ctrlCount: nat, divisor: nat)
    requires porch < TWO_31 && 0 < ctrlCount <= divisor && ctrlCount <= MAX_CTRLS
    ensures var all := U32(porch * ctrlCount); Share(all, divisor) == porch <==> divisor == ctrlCount || all == 0
  {
    var all := U32(porch * ctrlCount);
    assert all == porch * ctrlCount by {
      Times(porch, ctrlCount, MAX_CTRLS);
    }
    hide Share, U32;
    ShareOfAll(porch, ctrlCount, divisor);
    assert all == 0 <==> porch == 0 by {
      Times(porch, 1, ctrlCount);
    }
  }

  /** What one controller's total becomes when the shared porch is written back for all of them. */
  lemma SharedLineRate(oldFps: nat, newFps: nat, oldTotal: nat, rest: int, porch: nat, ctrlCount: nat, divisor: nat)
    requires KeepsLineRate(oldFps, newFps, oldTotal, rest + porch) && porch < TWO_31
    requires 0 < ctrlCount <= divisor && ctrlCount <= MAX_CTRLS
    ensures var all := U32(porch * ctrlCount);
      KeepsLineRate(oldFps, newFps, oldTotal, rest + Share(all, divisor)) <==> divisor == ctrlCount || all == 0
  {
    hide KeepsLineRate, Share, U32;
    SharedBack(porch, ctrlCount, divisor);
    var back := rest + Share(U32(porch * ctrlCount), divisor);
    if KeepsLineRate(oldFps, newFps, oldTotal, back) {
      LineRateUnique(oldFps, newFps, oldTotal, back, rest + porch);
    }
  }

  /** Two sublinks on one controller, 60 to 30 frames per second: of 200 pixels a sublink gets 145. */
  lemma SplitLinkLosesRate()
    ensures KeepsLineRate(60, 30, 100, 90 + 110)
    ensures Share(U32(110 * 1), 2) == 55 && !KeepsLineRate(60, 30, 100, 90 + 55)
  {
    assert U32(110) == 110;
    QuotientUnique(Share(110, 2), 55, 110, 2);
  }

  class Timing {
    var hActive: u32
    var hBackPorch: u32
    var hSyncWidth: u32
    var hFrontPorch: u32
    var vActive: u32
    var vBackPorch: u32
    var vSyncWidth: u32
    var vFrontPorch: u32
    var refreshRate: u32
    var clkRateHz: u64
    var dsc: Dsc

    function HFixed(): nat
      reads this`hActive, this`hBackPorch, this`hSyncWidth, this`dsc
    {
      (if dsc.Dsc? then dsc.pclkPerLine else hActive) + hBackPorch + hSyncWidth
    }

    function VFixed(): nat
      reads this`vActive, this`vBackPorch, this`vSyncWidth
    {
      vActive + vBackPorch + vSyncWidth
    }

    /** The horizontal total is summed in 64 bits. */
    function HTotalDsc(): nat
      reads this`hActive, this`hBackPorch, this`hSyncWidth, this`hFrontPorch, this`dsc
    {
      HFixed() + hFrontPorch
    }

    function VSum(): nat
      reads this`vActive, this`vBackPorch, this`vSyncWidth, this`vFrontPorch
    {
      VFixed() + vFrontPorch
    }

    /** The vertical total is summed in 32 bits. */
    function VTotal(): u32
      reads this`vActive, this`vBackPorch, this`vSyncWidth, this`vFrontPorch
    {
      U32(VSum())
    }

    /** Seamless refresh change: only the chosen front porch moves, and the total it belongs to keeps the
        line rate exactly when nothing is truncated. On the horizontal axis that is each controller's total,
        and a split link that divided the fields by more than the controllers loses the rate. */
    method GetDfpsTiming(kind: DfpsType, divisor: nat, ctrlCount: nat, overlap: u32, curFps: u32) returns (rc: int)
      requires 0 < ctrlCount <= divisor && ctrlCount <= MAX_CTRLS
      modifies this`hFrontPorch, this`vFrontPorch
      ensures kind == Unsupported ==> rc == -ENOTSUPP
      ensures rc == 0 ==> refreshRate > 0
      ensures rc != 0 ==> hFrontPorch == old(hFrontPorch) && vFrontPorch == old(vFrontPorch)
      ensures kind != ImmediateVfp ==> vFrontPorch == old(vFrontPorch)
      ensures kind != ImmediateHfp ==> hFrontPorch == old(hFrontPorch)
      ensures kind == ImmediateVfp && rc == 0 && old(VSum()) < TWO_32 && Abs(curFps - refreshRate) <= TWO_31 ==>
        (KeepsLineRate(curFps, refreshRate, old(VSum()), VSum()) <==>
            PorchFits(curFps, refreshRate, old(VSum()), old(vFrontPorch)))
      ensures kind == ImmediateHfp && rc == 0 && old(PerCtrl(divisor, overlap)) < TWO_32
              && Abs(curFps - refreshRate) <= TWO_31 ==>
        var before, after := old(PerCtrl(divisor, overlap)), PerCtrl(divisor, overlap);
        var fits := PorchFits(curFps, refreshRate, before, old(Share(hFrontPorch, divisor)));
        && (divisor == ctrlCount ==> (KeepsLineRate(curFps, refreshRate, before, after) <==> fits))
        && (fits ==> (KeepsLineRate(curFps, refreshRate, before, after) <==> divisor == ctrlCount || hFrontPorch == 0))
      ensures kind == ImmediateVfp && old(VSum()) < TWO_32
              && MayChange(curFps, old(PerCtrl(divisor, 0)), old(VSum())) ==>
        (rc == 0 <==> S32(TruePorch(curFps, refreshRate, old(VSum()), old(vFrontPorch))) >= 0)
      ensures kind == ImmediateHfp && old(PerCtrl(divisor, overlap)) < TWO_32
              && MayChange(curFps, old(VTotal()), old(PerCtrl(divisor, overlap))) ==>
        (rc == 0 <==>
            S32(TruePorch(curFps, refreshRate, old(PerCtrl(divisor, overlap)), old(Share(hFrontPorch, divisor)))) >= 0)
    {
      hide KeepsLineRate, Share, U32, S32, PorchFits, TruePorch, SplitFits, Abs;
      rc := 0;
      match kind
      case ImmediateVfp =>
        var porch;
        rc, porch := CalcFrontPorch(curFps, refreshRate, U32(PerCtrl(divisor, 0)), VTotal(), vFrontPorch);
        if rc == 0 {
          vFrontPorch := porch;
        }
      case ImmediateHfp =>
        var porch;
        var total, share := PerCtrl(divisor, overlap), Share(hFrontPorch, divisor);
        rc, porch := CalcFrontPorch(curFps, refreshRate, VTotal(), U32(total), share);
        if rc == 0 {
          SharedBack(porch, ctrlCount, divisor);
          if KeepsLineRate(curFps, refreshRate, total, total - share + porch) {
            SharedLineRate(curFps, refreshRate, total, total - share, porch, ctrlCount, divisor);
          }
          hFrontPorch := U32(porch * ctrlCount);
        }
      case Unsupported =>
        rc := -ENOTSUPP;
    }

    /** There is something to change from and to, and the product on the remainder fits. */
    predicate MayChange(curFps: u32, other: nat, total: nat)
      reads this`refreshRate
    {
      && U32(other) != 0 && refreshRate != 0 && Abs(curFps - refreshRate) <= TWO_31
      && SplitFits(total, Abs(curFps - refreshRate), refreshRate)
    }

    /** Fields that the controllers can share evenly add up to the total of all of them; with stream compression the
        line does not take part. */
    lemma PerCtrlShares(divisor: nat, overlap: nat)
      requires divisor > 0 && hBackPorch % divisor == hSyncWidth % divisor == hFrontPorch % divisor == 0
      requires dsc.Dsc? || hActive % divisor == 0
      ensures divisor * PerCtrl(divisor, overlap) ==
        (if dsc.Dsc? then divisor * dsc.pclkPerLine else hActive) + hBackPorch + hSyncWidth + hFrontPorch
        + divisor * overlap
    {
      Evenly(hActive, divisor);
      Evenly(hBackPorch, divisor);
      Evenly(hSyncWidth, divisor);
      Evenly(hFrontPorch, divisor);
      var line := if dsc.Dsc? then dsc.pclkPerLine else Share(hActive, divisor);
      var a, b, c := Share(hBackPorch, divisor), Share(hSyncWidth, divisor), Share(hFrontPorch, divisor);
      hide Share;
      assert divisor * (line + a + b + c + overlap)
        == divisor * line + divisor * a + divisor * b + divisor * c + divisor * overlap;
    }

    /** The horizontal total of one controller; with stream compression the line length is already its own. */
    function PerCtrl(divisor: nat, overlap: nat): nat
      requires divisor > 0
      reads this`hActive, this`hBackPorch, this`hSyncWidth, this`hFrontPorch, this`dsc
    {
      var line := if dsc.Dsc? then dsc.pclkPerLine else Share(hActive, divisor);
      line + Share(hBackPorch, divisor) + Share(hSyncWidth, divisor) + Share(hFrontPorch, divisor) + overlap
    }

    /** A new bit clock at the same refresh rate: the total on the chosen axis becomes the one whole number
        of lines or pixels that the clock can carry, exactly when that number leaves room for the fixed part
        and the porch fits its field. */
    method AdjustModeTiming(maintainConstFps: bool, kind: DynClkType, phy: PhyType, lanes: nat, bpp: nat)
      requires maintainConstFps && kind == AdjustHfp ==> U32(Divisor(phy, bpp, VTotal(), refreshRate)) != 0
      requires maintainConstFps && kind == AdjustVfp ==> U32(Divisor(phy, bpp, HTotalDsc(), refreshRate)) != 0
      modifies this`hFrontPorch, this`vFrontPorch
      ensures !(maintainConstFps && kind == AdjustHfp) ==> hFrontPorch == old(hFrontPorch)
      ensures !(maintainConstFps && kind == AdjustVfp) ==> vFrontPorch == old(vFrontPorch)
      ensures maintainConstFps && kind == AdjustHfp ==>
        var divisor := U32(Divisor(phy, bpp, VTotal(), refreshRate));
        TotalCarries(HFixed(), hFrontPorch, Carried(phy, clkRateHz, lanes), divisor)
      ensures maintainConstFps && kind == AdjustVfp ==>
        var divisor := U32(Divisor(phy, bpp, HTotalDsc(), refreshRate));
        TotalCarries(VFixed(), vFrontPorch, Carried(phy, clkRateHz, lanes), divisor)
    {
      if !maintainConstFps {
        return;
      }
      match kind
      case AdjustHfp =>
        var oldTotal := HTotalDsc();
        var newTotal, div := U64(clkRateHz * lanes), bpp * VTotal() * refreshRate;
        if phy == CPhy {
          newTotal, div := U64(newTotal * BITS_PER_SYMBOL), div * NUM_OF_SYMBOLS;
        }
        assert newTotal == Carried(phy, clkRateHz, lanes) && div == Divisor(phy, bpp, VTotal(), refreshRate);
        PorchCarries(HFixed(), newTotal, div);
        hide U32, U64, Carried, Divisor, TotalCarries;
        newTotal := DoDiv(newTotal, div);
        if oldTotal > newTotal {
          hFrontPorch := U32(hFrontPorch - (oldTotal - newTotal));
        } else {
          hFrontPorch := U32(hFrontPorch + (newTotal - oldTotal));
        }
        assert hFrontPorch == U32(newTotal - HFixed());
      case AdjustVfp =>
        var newTotal, div := U64(clkRateHz * lanes), bpp * HTotalDsc() * refreshRate;
        if phy == CPhy {
          newTotal, div := U64(newTotal * BITS_PER_SYMBOL), div * NUM_OF_SYMBOLS;
        }
        assert newTotal == Carried(phy, clkRateHz, lanes) && div == Divisor(phy, bpp, HTotalDsc(), refreshRate);
        PorchCarries(VFixed(), newTotal, div);
        hide U32, U64, Carried, Divisor, TotalCarries;
        newTotal := DoDiv(newTotal, div);
        vFrontPorch := U32(newTotal - vBackPorch - vSyncWidth - vActive);
        assert vFrontPorch == U32(newTotal - VFixed());
      case Legacy =>
    }
  }

  /** What the clock carries in a second, scaled for the symbols of a C-PHY, in the driver's 64 bits. */
  function Carried(phy: PhyType, clk: nat, lanes: nat): nat
  {
    ProductIsNat(clk, lanes);
    if phy == CPhy then U64(U64(clk * lanes) * BITS_PER_SYMBOL) else U64(clk * lanes)
  }

  /** A 32-bit clock on four lanes is far from wrapping. */
  lemma CarriedExactly(phy: PhyType, clk: nat, lanes: nat)
    ensures clk * lanes * BITS_PER_SYMBOL < TWO_64 ==>
      Carried(phy, clk, lanes) == clk * lanes * (if phy == CPhy then BITS_PER_SYMBOL else 1)
    ensures clk < TWO_32 && lanes <= 4 ==> clk * lanes * BITS_PER_SYMBOL < TWO_64
  {
    ProductIsNat(clk, lanes);
    if clk < TWO_32 && lanes <= 4 {
      Times(clk, lanes, 4);
    }
  }

  /** What one unit of the total costs in a second. */
  function Divisor(phy: PhyType, bpp: nat, other: nat, fps: nat): nat
  {
    if phy == CPhy then bpp * other * fps * NUM_OF_SYMBOLS else bpp * other * fps
  }

  /** The kernel's 64-bit division takes a 32-bit divisor; what the driver's products lose at 64 bits, the
      divisor loses with it. */
  function DoDiv(n: nat, base: nat): nat
    requires U32(base) != 0
  {
    Quot(n, U32(base))
  }

  /** total * divisor <= dividend < (total + 1) * divisor, exactly when the dividend has room for the fixed
      part and not for 2^32 units more. */
  ghost predicate TotalCarries(fixed: nat, porch: nat, dividend: nat, divisor: nat)
  {
    IsQuotient(fixed + porch, dividend, divisor) <==> divisor * fixed <= dividend < divisor * (fixed + TWO_32)
  }

  lemma PorchCarries(fixed: nat, dividend: nat, base: nat)
    requires U32(base) != 0
    ensures TotalCarries(fixed, U32(DoDiv(dividend, base) - fixed), dividend, U32(base))
  {
    var q, divisor := DoDiv(dividend, base), U32(base);
    var total := fixed + U32(q - fixed);
    if divisor * fixed <= dividend < divisor * (fixed + TWO_32) {
      if q < fixed {
        Times(divisor, q + 1, fixed);
      }
      if fixed + TWO_32 <= q {
        Times(divisor, fixed + TWO_32, q);
      }
      assert total == q;
    }
    if IsQuotient(total, dividend, divisor) {
      Times(divisor, fixed, total);
      Times(divisor, total + 1, fixed + TWO_32);
    }
  }
}
