/** The seeded generator behind a corpus, in JavaScript's 32-bit arithmetic. */
module Lcg {
  import opened Prelude

  const MODULUS: nat := 0x1_0000_0000
  const HALF: int := 0x8000_0000
  const MULTIPLIER: nat := 1664525
  const INCREMENT: nat := 1013904223

  /** `x >>> 0` (section 7.1.7 of ECMA-262) */
  function ToUint32(x: int): (r: nat)
    ensures r < MODULUS
  {
    x % MODULUS
  }

  /** `Math.imul(x, y)` (section 21.3.2.19 of ECMA-262): the product modulo 2^32 as a signed number. */
  function Imul(x: int, y: int): (r: int)
    ensures -HALF <= r < HALF
  {
    var p := (ToUint32(x) * ToUint32(y)) % MODULUS;
    if p >= HALF then p - MODULUS else p
  }

  /** The state after one call, as the source computes it. */
  function Step(state: nat): (r: nat)
    ensures r < MODULUS
  {
    ToUint32(Imul(state, MULTIPLIER) + INCREMENT)
  }

  lemma ModDrops(x: int, k: int)
    ensures (x + k * MODULUS) % MODULUS == x % MODULUS
  {
    var q := x / MODULUS;
    var r := x % MODULUS;
    assert x + k * MODULUS == (q + k) * MODULUS + r;
    Remainder(x + k * MODULUS, q + k, r);
  }

  lemma Remainder(x: int, q: int, r: int)
    requires x == q * MODULUS + r && 0 <= r < MODULUS
    ensures x % MODULUS == r
  {
  }

  /** The 32-bit form is the linear congruence over the integers. */
  lemma StepIsCongruence(state: nat)
    requires state < MODULUS
    ensures Step(state) == (MULTIPLIER * state + INCREMENT) % MODULUS
  {
    var product := state * MULTIPLIER;
    var p := product % MODULUS;
    var signed := Imul(state, MULTIPLIER);
    ModDrops(p + INCREMENT, if p >= HALF then -1 else 0);
    ModDrops(p + INCREMENT, product / MODULUS);
  }

  const INVERSE: nat := 4276115653

  /** The state before a call. */
  function Back(state: nat): (r: nat)
    ensures r < MODULUS
  {
    (INVERSE * (state - INCREMENT)) % MODULUS
  }

  lemma BackStep(state: nat)
    requires state < MODULUS
    ensures Back(Step(state)) == state
  {
    StepIsCongruence(state);
    var x := MULTIPLIER * state + INCREMENT;
    var q := x / MODULUS;
    assert Step(state) == x - q * MODULUS;
    assert INVERSE * (Step(state) - INCREMENT) == state + (1657219 * state - INVERSE * q) * MODULUS;
    ModDrops(state, 1657219 * state - INVERSE * q);
  }

  lemma StepBack(state: nat)
    requires state < MODULUS
    ensures Step(Back(state)) == state
  {
    var y := INVERSE * (state - INCREMENT);
    var p := y / MODULUS;
    StepIsCongruence(Back(state));
    assert MULTIPLIER * Back(state) + INCREMENT == state + (1657219 * (state - INCREMENT) - MULTIPLIER * p) * MODULUS;
    ModDrops(state, 1657219 * (state - INCREMENT) - MULTIPLIER * p);
  }

  /** The step is a permutation of the 2^32 states: it can be undone on either side. */
  lemma StepIsPermutation(state: nat)
    requires state < MODULUS
    ensures Back(Step(state)) == state
    ensures Step(Back(state)) == state
  {
    BackStep(state);
    StepBack(state);
  }

  /** The state after `n` calls. */
  function StateAfter(seed: int, n: nat): (r: nat)
    ensures r < MODULUS
  {
    if n == 0 then ToUint32(seed) else Step(StateAfter(seed, n - 1))
  }

  /** The closure `createRandom` returns. */
  class Random {
    var state: nat
    ghost const seed: int
    ghost var calls: nat

    ghost predicate Valid()
      reads this
    {
      state == StateAfter(seed, calls)
    }

    constructor (seed: int)
      ensures Valid() && this.seed == seed && calls == 0
    {
      this.seed := seed;
      state := ToUint32(seed);
      calls := 0;
    }

    /** A number in [0, 1); exact, because the divisor is a power of two. */
    method Next() returns (r: real)
      requires Valid()
      modifies this
      ensures Valid() && calls == old(calls) + 1
      ensures r == StateAfter(seed, calls) as real / MODULUS as real
      ensures 0.0 <= r < 1.0
    {
      state := Step(state);
      calls := calls + 1;
      r := state as real / MODULUS as real;
    }
  }

  /** `Math.floor(random() * n)` is an index below `n`; for n = 8 it is the top three bits of the state. */
  lemma RandomIndexInRange(state: nat, n: nat)
    requires state < MODULUS && n > 0
    ensures 0 <= (state as real / MODULUS as real * n as real).Floor < n
    ensures n == 8 ==> (state as real / MODULUS as real * n as real).Floor == state / 0x2000_0000
  {
    var u := state as real / MODULUS as real;
    Fraction(state as real, MODULUS as real);
    UnitIndex(u, state, n);
    if n == 8 {
      assert u * n as real == u * 8.0;
      Eighth(u, state);
    }
  }

  lemma Fraction(x: real, m: real)
    requires m > 0.0
    ensures x / m * m == x
  {
  }

  lemma UnitIndex(u: real, state: nat, n: nat)
    requires u * 4294967296.0 == state as real && state < MODULUS && n > 0
    ensures 0 <= (u * n as real).Floor < n
  {
    UnitFraction(u, 4294967296.0, state as real);
    UnitTimes(u, n as real);
    FloorBelow(u * n as real, n);
  }

  lemma UnitFraction(u: real, m: real, s: real)
    requires m > 0.0 && u * m == s && 0.0 <= s < m
    ensures 0.0 <= u < 1.0
  {
    Bracket(u, m, 0.0, s);
  }

  lemma UnitTimes(u: real, b: real)
    requires 0.0 <= u < 1.0 && b > 0.0
    ensures 0.0 <= u * b < b
  {
    assert (1.0 - u) * b > 0.0;
    assert (1.0 - u) * b == b - u * b;
  }

  lemma FloorBelow(x: real, n: nat)
    requires 0.0 <= x < n as real
    ensures 0 <= x.Floor < n
  {
  }

  lemma FloorIs(x: real, q: int)
    requires q as real <= x < q as real + 1.0
    ensures x.Floor == q
  {
  }

  /** A number whose `d`-fold is `q` times `d` and a rest lies between `q` and the next whole number. */
  lemma Bracket(x: real, d: real, q: real, r: real)
    requires d > 0.0 && x * d == q * d + r && 0.0 <= r < d
    ensures q <= x < q + 1.0
  {
    OneMore(q, q + 1.0, d);
    Scale(x, q, d);
    Scale(x, q + 1.0, d);
  }

  lemma OneMore(q: real, next: real, d: real)
    requires next == q + 1.0
    ensures next * d == q * d + d
  {
  }

  lemma Eighth(u: real, state: nat)
    requires u * 4294967296.0 == state as real
    ensures (u * 8.0).Floor == state / 0x2000_0000
  {
    var q, r := state / 0x2000_0000, state % 0x2000_0000;
    assert state == q * 0x2000_0000 + r;
    assert u * 8.0 * 536870912.0 == q as real * 536870912.0 + r as real;
    Bracket(u * 8.0, 536870912.0, q as real, r as real);
    FloorIs(u * 8.0, q);
  }
}
