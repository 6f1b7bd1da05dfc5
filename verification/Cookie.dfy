/** The 32-bit cookie that names an outgoing RPC: a wrapping counter in the upper
    22 bits and the slot of the message in the lower 10 (api/inc/rpc_exports.h). */
module Cookies {
  import Bits

  const WORD: int := 0x1_0000_0000
  const SLOT_SPAN: int := 1024          // 1 << UVISOR_RESULT_SLOT_BITS
  const COUNTER_STEP: int := 2048       // UVISOR_RESULT_COUNTER_INCREMENT
  const INVALID_COUNTER: int := 0xFFFF_FC00
  const PERIOD: int := 0x20_0000        // 2^21 distinct counter values

  type u32 = x: int | 0 <= x < WORD

  // ---- the word and its masks -------------------------------------------------

  /** uvisor_result_slot: the masked value is returned through an 8-bit type. */
  function ResultSlot(result: u32): nat {
    (result % SLOT_SPAN) % 256
  }

  function ResultCounter(result: u32): u32 {
    result - result % SLOT_SPAN
  }

  function ResultBuild(counter: u32, slot: nat): u32 {
    counter - counter % SLOT_SPAN + slot % SLOT_SPAN
  }

  const SLOT_MASK: nat := 0x3FF            // UVISOR_RESULT_SLOT_MASK
  const COUNTER_MASK: nat := 0xFFFF_FC00   // UVISOR_RESULT_COUNTER_MASK

  /** The divisions and remainders above are the mask expressions of the source. */
  lemma MasksAreDivisions(result: u32, slot: nat)
    ensures ResultSlot(result) == Bits.And(result, SLOT_MASK) % 256
    ensures ResultCounter(result) == Bits.And(result, COUNTER_MASK)
    ensures ResultBuild(result, slot) == Bits.Or(Bits.And(result, COUNTER_MASK), Bits.And(slot, SLOT_MASK))
  {
    SlotMask(result);
    SlotMask(slot);
    CounterMask(result);
    var hi := result / SLOT_SPAN;
    Powers(hi);
    Bits.OrJoins(hi, slot % SLOT_SPAN, 10);
  }

  lemma SlotMask(x: nat)
    ensures Bits.And(x, SLOT_MASK) == x % SLOT_SPAN
  {
    Powers(x / SLOT_SPAN);
    Bits.AndOnes(x / SLOT_SPAN, x % SLOT_SPAN, 10);
  }

  lemma CounterMask(x: u32)
    ensures Bits.And(x, COUNTER_MASK) == x - x % SLOT_SPAN
  {
    var hi := x / SLOT_SPAN;
    Powers(hi);
    Powers(0x3F_FFFF);
    Bits.AndHigh(hi, x % SLOT_SPAN, 0x3F_FFFF, 10);
    Bits.ShlZero(22);
    Bits.AndOnes(0, hi, 22);
  }

  lemma Powers(x: nat)
    ensures Bits.Pow2(10) == SLOT_SPAN && Bits.Pow2(22) == 0x40_0000
    ensures Bits.Shl(x, 10) == SLOT_SPAN * x
  {
    assert Bits.Shl(x, 1) == 2 * x;
    assert Bits.Shl(x, 2) == 4 * x;
    assert Bits.Shl(x, 3) == 8 * x;
    assert Bits.Shl(x, 4) == 16 * x;
    assert Bits.Shl(x, 5) == 32 * x;
    assert Bits.Shl(x, 6) == 64 * x;
    assert Bits.Shl(x, 7) == 128 * x;
    assert Bits.Shl(x, 8) == 256 * x;
    assert Bits.Shl(x, 9) == 512 * x;
  }

  /** Slots are uint8_t, so both fields survive being packed. */
  lemma BuildRoundTrip(counter: u32, slot: nat)
    requires slot < 256
    ensures ResultSlot(ResultBuild(counter, slot)) == slot
    ensures ResultCounter(ResultBuild(counter, slot)) == ResultCounter(counter)
  {
    assert counter - counter % SLOT_SPAN == SLOT_SPAN * (counter / SLOT_SPAN);
    assert ResultBuild(counter, slot) == SLOT_SPAN * (counter / SLOT_SPAN) + slot;
  }

  // ---- the word as its two fields ---------------------------------------------

  /** A cookie taken apart; the protocol compares and copies it in this form. */
  datatype Cookie = Cookie(counter: u32, slot: nat)

  function Packed(c: Cookie): u32 {
    ResultBuild(c.counter, c.slot)
  }

  function Build(counter: u32, slot: nat): Cookie {
    Cookie(ResultCounter(counter), slot)
  }

  function InvalidCookie(slot: nat): Cookie {
    Cookie(INVALID_COUNTER, slot)
  }

  /** Equal words are equal fields, and the fields are those the accessors read. */
  lemma PackedFaithful(counter: u32, slot: nat, counter': u32, slot': nat)
    requires slot < 256 && slot' < 256
    ensures Packed(Build(counter, slot)) == ResultBuild(counter, slot)
    ensures ResultSlot(Packed(Build(counter, slot))) == Build(counter, slot).slot
    ensures ResultBuild(counter, slot) == ResultBuild(counter', slot')
            <==> Build(counter, slot) == Build(counter', slot')
    ensures Build(INVALID_COUNTER, slot) == InvalidCookie(slot)
  {
    BuildRoundTrip(counter, slot);
    BuildRoundTrip(counter', slot');
    assert ResultCounter(counter) == SLOT_SPAN * (counter / SLOT_SPAN);
    assert ResultCounter(INVALID_COUNTER) == INVALID_COUNTER;
  }

  // ---- stamping ---------------------------------------------------------------

  /** The counter word after `n` atomic increments from zero. */
  function CounterAfter(n: nat): u32 {
    if n == 0 then 0 else (CounterAfter(n - 1) + COUNTER_STEP) % WORD
  }

  /** The cookie of the `n`-th send of a box, in `slot`; `StampedCookie` shows that
      it is what uvisor_result_build makes of the counter. */
  function CookieAt(n: nat, slot: nat): Cookie {
    Cookie(CounterAfter(n), slot)
  }

  /** The counter runs through the even multiples of the slot span with period 2^21. */
  lemma {:induction false} CounterAfterIs(n: nat)
    ensures CounterAfter(n) == COUNTER_STEP * (n % PERIOD)
  {
    if n > 0 {
      CounterAfterIs(n - 1);
      NextResidue(n);
      NextCounter((n - 1) % PERIOD);
    }
  }

  lemma NextCounter(residue: nat)
    requires residue < PERIOD
    ensures (COUNTER_STEP * residue + COUNTER_STEP) % WORD
         == COUNTER_STEP * (if residue == PERIOD - 1 then 0 else residue + 1)
  {
  }

  lemma NextResidue(n: nat)
    requires n > 0
    ensures n % PERIOD == if (n - 1) % PERIOD == PERIOD - 1 then 0 else (n - 1) % PERIOD + 1
  {
  }

  lemma StampedCookie(n: nat, slot: nat)
    ensures Build(CounterAfter(n), slot) == CookieAt(n, slot)
  {
    CounterAfterIs(n);
    assert CounterAfter(n) == SLOT_SPAN * (2 * (n % PERIOD));
  }

  /** Two stamps give the same cookie exactly when they use the same slot and
      lie a multiple of 2^21 sends apart. */
  lemma CookieCollision(i: nat, s: nat, j: nat, t: nat)
    ensures CookieAt(i, s) == CookieAt(j, t) <==> s == t && i % PERIOD == j % PERIOD
  {
    CounterAfterIs(i);
    CounterAfterIs(j);
  }

  /** Any 2^21 consecutive stamps are pairwise distinct. */
  lemma CookiesInWindowDistinct(i: nat, s: nat, j: nat, t: nat)
    requires i < j < i + PERIOD
    ensures CookieAt(i, s) != CookieAt(j, t)
  {
    CookieCollision(i, s, j, t);
    assert j - i == PERIOD * (j / PERIOD - i / PERIOD) + (j % PERIOD - i % PERIOD);
  }

  /** No stamped cookie is an invalid cookie, nor the 0xFFFFFFFF (-1) that a
      failed asynchronous call returns. */
  lemma CookieNeverInvalid(n: nat, slot: nat, other: nat)
    ensures CookieAt(n, slot) != InvalidCookie(other)
    ensures slot < 256 ==> Packed(CookieAt(n, slot)) != 0xFFFF_FFFF
  {
    CounterAfterIs(n);
    assert INVALID_COUNTER == 1024 + COUNTER_STEP * 0x1F_FFFF;
    if slot < 256 {
      StampedCookie(n, slot);
      BuildRoundTrip(CounterAfter(n), slot);
      assert ResultCounter(0xFFFF_FFFF) == INVALID_COUNTER;
    }
  }
}
