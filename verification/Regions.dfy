/** Size arithmetic for MPU regions: api/inc/vmpu_exports.h, api/inc/box_config.h and
    api/rtx/src/unsupported_page_allocator.c. */
module Regions {
  import opened Bits

  /** UVISOR_REGION_BITS: the chain of 27 comparisons. */
  function RegionBits(x: nat): nat {
    if x <= 32 then 5 else if x <= 64 then 6 else if x <= 128 then 7 else if x <= 256 then 8
    else if x <= 512 then 9 else if x <= 1024 then 10 else if x <= 2048 then 11 else if x <= 4096 then 12
    else if x <= 8192 then 13 else if x <= 16384 then 14 else if x <= 32768 then 15 else if x <= 65536 then 16
    else if x <= 131072 then 17 else if x <= 262144 then 18 else if x <= 524288 then 19
    else if x <= 1048576 then 20 else if x <= 2097152 then 21 else if x <= 4194304 then 22
    else if x <= 8388608 then 23 else if x <= 16777216 then 24 else if x <= 33554432 then 25
    else if x <= 67108864 then 26 else if x <= 134217728 then 27 else if x <= 268435456 then 28
    else if x <= 536870912 then 29 else if x <= 1073741824 then 30 else if x <= 2147483648 then 31
    else 32
  }

  /** vmpu_bits: 32 minus the number of leading zeros. */
  function BitLength(x: nat): nat {
    if x == 0 then 0 else 1 + BitLength(x / 2)
  }

  /** The least n with x <= 2^n. */
  function CeilLog2(x: nat): nat {
    if x <= 1 then 0 else 1 + CeilLog2((x + 1) / 2)
  }

  lemma {:induction false} Pow2Monotone(m: nat, n: nat)
    requires m <= n
    ensures Pow2(m) <= Pow2(n) && (m < n ==> Pow2(m) < Pow2(n))
    decreases n
  {
    if m < n { Pow2Monotone(m, n - 1); }
  }

  lemma {:induction false} CeilLog2Is(x: nat, n: nat)
    ensures CeilLog2(x) <= n <==> x <= Pow2(n)
    decreases n
  {
    if n > 0 && x > 1 {
      CeilLog2Is((x + 1) / 2, n - 1);
    }
  }

  lemma {:induction false} BitLengthIs(x: nat, n: nat)
    ensures BitLength(x) <= n <==> x < Pow2(n)
    decreases n
  {
    if n > 0 && x > 0 {
      BitLengthIs(x / 2, n - 1);
    }
  }

  lemma Pow2Table()
    ensures Pow2(5) == 32 && Pow2(6) == 64 && Pow2(7) == 128 && Pow2(8) == 256 && Pow2(9) == 512
    ensures Pow2(10) == 1024 && Pow2(11) == 2048 && Pow2(12) == 4096 && Pow2(13) == 8192 && Pow2(14) == 16384
    ensures Pow2(15) == 32768 && Pow2(16) == 65536 && Pow2(17) == 131072 && Pow2(18) == 262144
    ensures Pow2(19) == 524288 && Pow2(20) == 1048576 && Pow2(21) == 2097152 && Pow2(22) == 4194304
    ensures Pow2(23) == 8388608 && Pow2(24) == 16777216 && Pow2(25) == 33554432 && Pow2(26) == 67108864
    ensures Pow2(27) == 134217728 && Pow2(28) == 268435456 && Pow2(29) == 536870912
    ensures Pow2(30) == 1073741824 && Pow2(31) == 2147483648 && Pow2(32) == 4294967296
  {
  }

  /** Where the chain stops. */
  lemma RegionBitsBetween(x: nat)
    requires x <= 0x1_0000_0000
    ensures 5 <= RegionBits(x) <= 32 && x <= Pow2(RegionBits(x))
    ensures RegionBits(x) == 5 || Pow2(RegionBits(x) - 1) < x
  {
    Pow2Table();
  }

  /** The chain computes the ceiling of the binary logarithm, but at least 5. */
  lemma RegionBitsExactly(x: nat)
    requires x <= 0x1_0000_0000
    ensures RegionBits(x) == if CeilLog2(x) < 5 then 5 else CeilLog2(x)
  {
    var n := RegionBits(x);
    RegionBitsBetween(x);
    CeilLog2Is(x, n);
    if n > 5 { CeilLog2Is(x, n - 1); }
  }

  /** Above 32 bytes the compile-time chain and the run-time instruction agree. */
  lemma BitsAgree(x: nat)
    requires 32 < x <= 0x1_0000_0000
    ensures RegionBits(x) == BitLength(x - 1)
  {
    var n := RegionBits(x);
    RegionBitsBetween(x);
    Pow2Table();
    BitLengthIs(x - 1, n);
    BitLengthIs(x - 1, n - 1);
  }

  // ---- the rounding schemes --------------------------------------------------------

  datatype Mpu = Armv7M | Armv8M | Absent

  /** UVISOR_REGION_ROUND_UP. */
  function RoundUp(mpu: Mpu, x: nat): nat {
    match mpu
    case Armv7M => Pow2(RegionBits(x))
    case Armv8M => (x + 31) / 32 * 32
    case Absent => x
  }

  /** Clearing the bits below a power of two. */
  function Down(x: nat, p: nat): nat
    requires p > 0
  {
    x - x % p
  }

  /** UVISOR_REGION_ROUND_DOWN. */
  function RoundDown(mpu: Mpu, x: nat): nat {
    match mpu
    case Armv7M => Down(x, Pow2(RegionBits(x)))
    case Armv8M => Down(x, 32)
    case Absent => x
  }

  /** The sizes a region may have. */
  ghost predicate RegionSize(mpu: Mpu, x: nat) {
    match mpu
    case Armv7M => x >= 32 && exists n :: x == Pow2(n)
    case Armv8M => x % 32 == 0
    case Absent => true
  }

  /** Rounding up gives the least region size that covers x. */
  lemma RoundUpLeast(mpu: Mpu, x: nat, y: nat)
    requires x <= 0x8000_0000
    ensures RegionSize(mpu, RoundUp(mpu, x)) && x <= RoundUp(mpu, x) <= 0x8000_0000
    ensures RegionSize(mpu, y) && x <= y ==> RoundUp(mpu, x) <= y
  {
    if mpu.Armv7M? {
      var n := RegionBits(x);
      RegionBitsBetween(x);
      Pow2Table();
      Pow2Monotone(5, n);
      assert n <= 31;
      Pow2Monotone(n, 31);
      if RegionSize(mpu, y) && x <= y {
        var k :| y == Pow2(k);
        CeilLog2Is(x, k);
        CeilLog2Is(32, k);
        RegionBitsExactly(x);
        RegionBitsExactly(32);
        Pow2Monotone(n, k);
      }
    }
  }

  lemma RoundUpMonotone(mpu: Mpu, x: nat, y: nat)
    requires x <= y <= 0x8000_0000
    ensures RoundUp(mpu, x) <= RoundUp(mpu, y)
  {
    RoundUpLeast(mpu, y, y);
    RoundUpLeast(mpu, x, RoundUp(mpu, y));
  }

  lemma DownIs(x: nat, p: nat)
    requires x <= p && p > 0
    ensures Down(x, p) == if x == p then x else 0
  {
  }

  /** On Armv7-M the chain rounds up, so rounding down along it keeps region sizes and
      sends every other size to 0. */
  lemma RoundDownExactly(x: nat)
    requires x <= 0x8000_0000
    ensures RoundDown(Armv7M, x) == if RegionSize(Armv7M, x) then x else 0
  {
    var p := RoundUp(Armv7M, x);
    RoundUpLeast(Armv7M, x, x);
    DownIs(x, p);
  }

  // ---- what a box reserves -----------------------------------------------------------

  function Round4(x: nat): nat {
    (x + 3) / 4 * 4
  }

  function MinStack(x: nat): nat {
    if x < 1024 then 1024 else x
  }

  function StackSizeRound(mpu: Mpu, x: nat): nat {
    match mpu
    case Armv7M => RoundUp(mpu, x)
    case Armv8M => RoundUp(mpu, x + 2 * 128)
    case Absent => x
  }

  /** The bytes before rounding; `others` is the sum of the sizes of the heap, index,
      queues and C library state, each rounded to 4. */
  function Wanted(stack: nat, context: nat, others: nat): nat {
    (MinStack(stack) + Round4(context) + others) * 8 / 6
  }

  /** __UVISOR_BOX_CONFIG. */
  function Reserved(mpu: Mpu, stack: nat, context: nat, others: nat): nat {
    StackSizeRound(mpu, Wanted(stack, context, others))
  }

  /** The context of a box fits in what the box reserved, with room for its stack and
      the rest, and all of it in six eighths of the reservation. */
  lemma ContextFits(mpu: Mpu, stack: nat, context: nat, others: nat)
    requires Wanted(stack, context, others) + 256 <= 0x8000_0000
    ensures RoundUp(mpu, context) <= Reserved(mpu, stack, context, others)
    ensures MinStack(stack) + context + others <= Reserved(mpu, stack, context, others)
    ensures (MinStack(stack) + context + others) * 8 < (Reserved(mpu, stack, context, others) + 1) * 6
  {
    var w := Wanted(stack, context, others);
    assert context <= Round4(context) && MinStack(stack) + Round4(context) + others <= w;
    RoundUpMonotone(mpu, context, w);
    RoundUpMonotone(mpu, w, w + 256);
    RoundUpLeast(mpu, w, w);
    RoundUpLeast(mpu, w + 256, w);
  }

  /** The reservation is the least region size for eight sixths of the stack, of at least
      1024 bytes, the context rounded to words and the rest; on Armv8-M with two bands of 128
      bytes for the stack on top. */
  lemma ReservedLeast(mpu: Mpu, stack: nat, context: nat, others: nat, y: nat)
    requires Wanted(stack, context, others) + 256 <= 0x8000_0000
    ensures var words := if context % 4 == 0 then context else context + 4 - context % 4;
            var wanted := ((if stack < 1024 then 1024 else stack) + words + others) * 8 / 6;
            var least := wanted + if mpu.Armv8M? then 256 else 0;
            && RegionSize(mpu, Reserved(mpu, stack, context, others)) && least <= Reserved(mpu, stack, context, others)
            && (RegionSize(mpu, y) && least <= y ==> Reserved(mpu, stack, context, others) <= y)
  {
    var w := Wanted(stack, context, others);
    RoundUpLeast(mpu, w, y);
    RoundUpLeast(mpu, w + 256, y);
    assert Round4(context) == if context % 4 == 0 then context else context + 4 - context % 4;
  }

  // ---- aligning an address -------------------------------------------------------------

  const WORD: nat := 0x1_0000_0000

  lemma {:induction false} AndNotBounds(x: nat, m: nat)
    ensures AndNot(x, m) <= x <= AndNot(x, m) + m
  {
    if x > 0 { AndNotBounds(x / 2, m / 2); }
  }

  /** The k lowest bits are all set. */
  predicate LowOnes(m: nat, k: nat) {
    k == 0 || (m % 2 == 1 && LowOnes(m / 2, k - 1))
  }

  ghost predicate Multiple(x: nat, p: nat) {
    exists q: nat :: x == q * p
  }

  lemma {:induction false} AndNotLow(x: nat, m: nat, k: nat)
    requires LowOnes(m, k)
    ensures Multiple(AndNot(x, m), Pow2(k))
    decreases k
  {
    if x == 0 {
      assert 0 == 0 * Pow2(k);
    } else if k == 0 {
      assert AndNot(x, m) == AndNot(x, m) * Pow2(k);
    } else {
      AndNotLow(x / 2, m / 2, k - 1);
      var q: nat :| AndNot(x / 2, m / 2) == q * Pow2(k - 1);
      assert AndNot(x, m) == 2 * (q * Pow2(k - 1)) == q * Pow2(k);
    }
  }

  /** vmpu_is_region_size_valid. */
  predicate SizeValid(size: nat) {
    AndNot(size, 31) == size
  }

  /** Addition in uint32_t. */
  function Add(x: nat, y: nat): nat {
    (x + y) % WORD
  }

  lemma AddIs(x: nat, y: nat)
    requires x < WORD && y < WORD
    ensures Add(x, y) == if x + y < WORD then x + y else x + y - WORD
  {
  }

  /** vmpu_round_up_region; subtracting 1 is adding WORD - 1. */
  function RoundUpRegion(addr: nat, size: nat): nat {
    var mask := Add(size, WORD - 1);
    if !SizeValid(size) then 0
    else if Add(addr, mask) < addr then 0
    else AndNot(Add(addr, mask), mask)
  }

  lemma SizeValidIs(size: nat)
    ensures SizeValid(size) <==> size % 32 == 0
  {
    assert Pow2(5) == 32 && LowOnes(31, 5);
    AndNotLow(size, 31, 5);
    AndNotBounds(size, 31);
  }

  lemma MaskOf(size: nat)
    requires size % 32 == 0 && size > 0
    ensures LowOnes(size - 1, 5)
  {
    var c := size / 32 - 1;
    OneMore(c, 0);
    OneMore(2 * c + 1, 1);
    OneMore(4 * c + 3, 2);
    OneMore(8 * c + 7, 3);
    OneMore(16 * c + 15, 4);
  }

  lemma OneMore(m: nat, k: nat)
    requires LowOnes(m, k)
    ensures LowOnes(2 * m + 1, k + 1)
  {
    assert (2 * m + 1) / 2 == m;
  }

  lemma RoundUpNothing(addr: nat)
    requires addr < WORD
    ensures RoundUpRegion(addr, 0) == 0
  {
    AddIs(0, WORD - 1);
    AddIs(addr, WORD - 1);
    Pow2Table();
    AllOnes(32);
  }

  /** The computation succeeds exactly for a size that is a positive multiple of 32 and
      a range that ends within the address space; then it gives a 32-aligned address in
      the first `size` bytes. */
  lemma RoundUpRegionIs(addr: nat, size: nat)
    requires addr < WORD && size < WORD
    ensures var ok := size > 0 && size % 32 == 0 && addr + size - 1 < WORD;
            var r := RoundUpRegion(addr, size);
            && (ok ==> Multiple(r, 32) && addr <= r <= addr + size - 1)
            && (!ok ==> r == 0)
  {
    SizeValidIs(size);
    AddIs(size, WORD - 1);
    AddIs(addr, Add(size, WORD - 1));
    if size == 0 {
      RoundUpNothing(addr);
    } else if size % 32 == 0 && addr + size - 1 < WORD {
      assert Pow2(5) == 32;
      MaskOf(size);
      AndNotBounds(addr + size - 1, size - 1);
      AndNotLow(addr + size - 1, size - 1, 5);
    }
  }

  lemma {:induction false} AllOnes(k: nat)
    ensures AndNot(Pow2(k) - 1, Pow2(k) - 1) == 0 && LowOnes(Pow2(k) - 1, k)
  {
    if k > 0 { AllOnes(k - 1); }
  }

  /** For a power of two it is the least multiple of the size that is not below addr. */
  lemma LeastAligned(addr: nat, k: nat, z: nat)
    requires addr < WORD && 5 <= k < 32 && addr + Pow2(k) - 1 < WORD
    ensures Multiple(RoundUpRegion(addr, Pow2(k)), Pow2(k))
    ensures addr <= z && Multiple(z, Pow2(k)) ==> RoundUpRegion(addr, Pow2(k)) <= z
  {
    AlignedIs(addr, k);
    if addr <= z && Multiple(z, Pow2(k)) { MultiplesApart(RoundUpRegion(addr, Pow2(k)), z, Pow2(k)); }
  }

  lemma AlignedIs(addr: nat, k: nat)
    requires addr < WORD && 5 <= k < 32 && addr + Pow2(k) - 1 < WORD
    ensures Multiple(RoundUpRegion(addr, Pow2(k)), Pow2(k)) && RoundUpRegion(addr, Pow2(k)) < addr + Pow2(k)
  {
    Pow2Multiple(k);
    RoundUpRegionIs(addr, Pow2(k));
    AllOnes(k);
    AndNotLow(addr + Pow2(k) - 1, Pow2(k) - 1, k);
    MaskedIs(addr, Pow2(k));
  }

  lemma MaskedIs(addr: nat, size: nat)
    requires 0 < size < WORD && size % 32 == 0 && addr + size - 1 < WORD
    ensures RoundUpRegion(addr, size) == AndNot(addr + size - 1, size - 1)
  {
    SizeValidIs(size);
    AddIs(size, WORD - 1);
    AddIs(addr, size - 1);
  }

  lemma {:induction false} Pow2Multiple(k: nat)
    requires 5 <= k < 32
    ensures Pow2(k) % 32 == 0 && Pow2(k) < WORD
  {
    Pow2Table();
    Pow2Monotone(k, 31);
    if k > 5 { Pow2Multiple(k - 1); }
  }

  /** Two multiples of p less than p apart are equal. */
  lemma MultiplesApart(r: nat, z: nat, p: nat)
    requires Multiple(r, p) && Multiple(z, p) && r < z + p
    ensures r <= z
  {
    var a: nat :| r == a * p;
    var b: nat :| z == b * p;
    if a > b {
      MultipleGrows(b + 1, a, p);
    } else {
      MultipleGrows(a, b, p);
    }
  }

  lemma {:induction false} MultipleGrows(a: nat, b: nat, p: nat)
    requires a <= b
    ensures a * p <= b * p && (b + 1) * p == b * p + p
  {
    assert b * p == a * p + (b - a) * p;
  }
}
