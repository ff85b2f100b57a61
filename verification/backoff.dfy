/**
Retry delays with deterministic jitter (NetworkBackoff in
src-tauri/src/network.rs). Durations are whole milliseconds; 64-bit unsigned
arithmetic saturates, wraps or must not overflow exactly where it does there.
*/
module Backoff {
  import opened Wrappers

  const U64: nat := 0x1_0000_0000_0000_0000
  const U32_MAX: nat := 0xFFFF_FFFF

  function Min(a: nat, b: nat): nat {
    if a < b then a else b
  }

  /** `saturating_mul` of two 64-bit numbers. */
  function SaturatingMul(a: nat, b: nat): nat {
    Min(a * b, U64 - 1)
  }

  function SaturatingSub(a: nat, b: nat): nat {
    if b <= a then a - b else 0
  }

  function Pow2(k: nat): nat {
    if k == 0 then 1 else 2 * Pow2(k - 1)
  }

  /** Arithmetic on 64-bit vectors wraps. */
  function Spread(attempt: bv64): bv64 {
    attempt * 1_103_515_245 + 12_345
  }

  function Mix(attempt: nat, salt: bv64): nat
    requires attempt <= U32_MAX
  {
    (salt ^ Spread(attempt as bv64)) as nat
  }

  function JitterCap(cap: nat): nat {
    if cap / 4 < 1 then 1 else cap / 4
  }

  function Jitter(attempt: nat, cap: nat, salt: bv64): nat
    requires attempt <= U32_MAX
  {
    if cap == 0 then 0 else Mix(attempt, salt) % JitterCap(cap)
  }

  /** The delay of attempt `k` before jitter. */
  function Capped(min: nat, max: nat, k: nat): nat {
    Min(SaturatingMul(min, Pow2(Min(k, 10))), max)
  }

  function Delay(min: nat, max: nat, k: nat, salt: bv64): nat
    requires k <= U32_MAX
  {
    var c := Capped(min, max, k);
    var jitter := Jitter(k, c, salt);
    if max <= c then SaturatingSub(max, jitter) else Min(c + jitter, max)
  }

  predicate Overflows(min: nat, max: nat, k: nat, salt: bv64)
    requires k <= U32_MAX
  {
    var c := Capped(min, max, k);
    c < max && U64 <= c + Jitter(k, c, salt)
  }

  class NetworkBackoff {
    var attempt: nat
    const min: nat
    const max: nat
    const salt: bv64

    constructor (min: nat, max: nat, salt: bv64)
      ensures this.min == min && this.max == max && this.salt == salt && attempt == 0
    {
      this.min, this.max, this.salt, attempt := min, max, salt, 0;
    }

    method Reset()
      modifies this
      ensures attempt == 0
    {
      attempt := 0;
    }

    /** Delivers the delay of the current attempt and moves to the next one.
        `None` stands for an overflow of the one unchecked sum, which only a
        maximum above four fifths of the 64-bit range makes possible. */
    method NextDelay() returns (delay: Option<nat>)
      requires attempt <= U32_MAX && min < U64 && max < U64
      modifies this
      ensures delay == if Overflows(min, max, old(attempt), salt) then None else Some(Delay(min, max, old(attempt), salt))
      ensures delay.None? ==> 4 * U64 <= 5 * max
      ensures attempt == Min(old(attempt) + 1, U32_MAX)
    {
      var shift := if attempt < 10 then attempt else 10;
      var exponential := SaturatingMul(min, Pow2(shift));
      var capped := if exponential < max then exponential else max;
      var jitter := Jitter(attempt, capped, salt);
      JitterSmall(attempt, capped, salt);
      attempt := if attempt < U32_MAX then attempt + 1 else U32_MAX;
      if max <= capped {
        delay := Some(SaturatingSub(max, jitter));
      } else if capped + jitter < U64 {
        delay := Some(Min(capped + jitter, max));
      } else {
        delay := None;
      }
    }
  }

  /** Jitter stays below a quarter of the capped delay, for every salt. */
  lemma JitterSmall(attempt: nat, cap: nat, salt: bv64)
    requires attempt <= U32_MAX
    ensures cap > 0 ==> 4 * Jitter(attempt, cap, salt) < cap
    ensures cap == 0 ==> Jitter(attempt, cap, salt) == 0
  {
    if cap > 0 {
      var m := JitterCap(cap);
      assert 0 <= Mix(attempt, salt) % m < m;
    }
  }

  /** The delay before jitter starts at the minimum and doubles ten times, but never
      exceeds the maximum. */
  lemma CappedDoubles(min: nat, max: nat, k: nat)
    requires max < U64
    ensures Capped(min, max, 0) == if min < max then min else max
    ensures k < 10 ==>
              Capped(min, max, k + 1) == if 2 * Capped(min, max, k) < max then 2 * Capped(min, max, k) else max
    ensures 10 <= k ==> Capped(min, max, k + 1) == Capped(min, max, k)
  {
    assert Pow2(0) == 1 && min * 1 == min;
    if k < 10 {
      assert Pow2(k + 1) == 2 * Pow2(k);
      Doubling(min, Pow2(k));
      NextCapped(min * Pow2(k), max);
    }
  }

  lemma NextCapped(x: nat, max: nat)
    requires max < U64
    ensures var c := Min(Min(x, U64 - 1), max);
            Min(Min(2 * x, U64 - 1), max) == if 2 * c < max then 2 * c else max
  {
  }

  /** No delay exceeds the maximum, and none is a quarter or more away from the
      exponential delay it jitters. */
  lemma DelayBounds(min: nat, max: nat, k: nat, salt: bv64)
    requires k <= U32_MAX
    ensures Delay(min, max, k, salt) <= max
    ensures var c, d := Capped(min, max, k), Delay(min, max, k, salt);
            && (c > 0 ==> 4 * (d - c) < c && 4 * (c - d) < c)
            && (c < max ==> c <= d)
  {
    JitterSmall(k, Capped(min, max, k), salt);
  }

  /** While doubling still helps, delays strictly increase in spite of the jitter. */
  lemma DelaysIncrease(min: nat, max: nat, k: nat, salt: bv64)
    requires 0 < min && max < U64 && k < 10 && min * Pow2(k + 1) < max
    ensures Delay(min, max, k, salt) < Delay(min, max, k + 1, salt)
  {
    var c := min * Pow2(k);
    assert Pow2(k + 1) == 2 * Pow2(k);
    assert min * Pow2(k + 1) == 2 * c by { Doubling(min, Pow2(k)); }
    Pow2Positive(k);
    assert Capped(min, max, k) == c && Capped(min, max, k + 1) == 2 * c;
    JitterSmall(k, c, salt);
    JitterSmall(k + 1, 2 * c, salt);
  }

  lemma Doubling(a: nat, b: nat)
    ensures a * (2 * b) == 2 * (a * b)
  {
  }

  lemma {:induction false} Pow2Positive(k: nat)
    ensures Pow2(k) > 0
  {
    if k > 0 { Pow2Positive(k - 1); }
  }

  /** Between two resets the delays grow until the maximum is in reach, then stay
      within a quarter of it. */
  lemma {:induction false} DelaysClimb(min: nat, max: nat, i: nat, j: nat, salt: bv64)
    requires 0 < min && max < U64 && i < j <= 10 && min * Pow2(j) < max
    ensures Delay(min, max, i, salt) < Delay(min, max, j, salt)
    decreases j - i
  {
    DelaysIncrease(min, max, j - 1, salt);
    if i < j - 1 {
      assert Pow2(j) == 2 * Pow2(j - 1);
      Doubling(min, Pow2(j - 1));
      DelaysClimb(min, max, i, j - 1, salt);
    }
  }

  lemma MixOfNothing()
    ensures Mix(0, 0) == 12_345
  {
    SpreadOfNothing();
    LiteralBack();
  }

  lemma SpreadOfNothing()
    ensures 0 ^ Spread(0) == 12_345
  {
  }

  lemma LiteralBack()
    ensures (12_345 as bv64) as nat == 12_345
  {
  }

  /** Salt and attempt both enter the jitter. */
  lemma JitterSamples()
    ensures Jitter(0, U64 - 2, 0) == 12_345
    ensures Jitter(0, U64 - 2, 1) == 12_344
    ensures Jitter(1, U64 - 2, 0) == 1_103_527_590
  {
    JitterThere();
    SaltedMix();
    SecondMix();
    hide Mix, JitterCap;
    CapThere();
    SmallRemainder(12_344, JitterCap(U64 - 2));
    SmallRemainder(1_103_527_590, JitterCap(U64 - 2));
  }

  lemma SaltedMix()
    ensures Mix(0, 1) == 12_344
  {
    assert 1 ^ Spread(0) == 12_344;
    assert (12_344 as bv64) as nat == 12_344;
  }

  lemma SecondMix()
    ensures Mix(1, 0) == 1_103_527_590
  {
    assert 0 ^ Spread(1) == 1_103_527_590;
    assert (1_103_527_590 as bv64) as nat == 1_103_527_590;
  }

  lemma JitterThere()
    ensures Jitter(0, U64 - 2, 0) == 12_345
  {
    hide Mix, JitterCap;
    MixOfNothing();
    CapThere();
    SmallRemainder(12_345, JitterCap(U64 - 2));
  }

  lemma CapThere()
    ensures JitterCap(U64 - 2) > 1_103_527_590
  {
  }

  lemma SmallRemainder(a: nat, b: nat)
    requires a < b
    ensures a % b == a
  {
  }

  lemma CappedThere()
    ensures Capped(U64 - 2, U64 - 1, 0) == U64 - 2
  {
    assert Pow2(0) == 1;
  }

  /** The sum does overflow next to the end of the range. */
  lemma SumCanOverflow()
    ensures Overflows(U64 - 2, U64 - 1, 0, 0)
  {
    hide Jitter, Capped;
    JitterThere();
    CappedThere();
  }

  /** A first delay below the maximum is lengthened by the jitter, one at the maximum
      is shortened by it. */
  lemma DelaySamples()
    ensures Delay(1_000, 60_000, 0, 0) == 1_095
    ensures Delay(1_000, 1_000, 0, 0) == 905
  {
    MixOfNothing();
    hide Mix;
    assert Pow2(0) == 1;
    assert Capped(1_000, 60_000, 0) == 1_000 && Capped(1_000, 1_000, 0) == 1_000;
    assert JitterCap(1_000) == 250;
    assert Jitter(0, 1_000, 0) == 95;
  }
}
