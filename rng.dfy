/**
 * RandomNumberGeneration.py: a multiplicative congruential generator (a = 16807, c = 0) with the
 * modulus the code writes, 2147283647 (not 2^31 - 1), and the partition of its sequence into
 * seed streams.
 */
module Rng {

  const A: int := 16807
  const C: int := 0
  const M: int := 2147283647
  const X0: int := 1234567

  /** A sample of the exponential transform: never negative. */
  type Duration = r: real | 0.0 <= r

  /**
   * The floating-point transform -ln(r) / lambda of RandomNumberGeneration.py:18, taken as a
   * parameter (argument order: r, lambda) because the model has no logarithm.
   */
  type Transform = (real, real) -> Duration

  /** One step of the recurrence x := (a * x + c) mod m, on the integer state. */
  function Step(x: int): (r: int)
    ensures 0 <= r < M
  {
    (A * x + C) % M
  }

  /** x advanced by k steps. */
  function Iterate(x: int, k: nat): int
  {
    if k == 0 then x else Step(Iterate(x, k - 1))
  }

  function Pos(b: int): nat { if b < 0 then 0 else b }

  /** The index at which stream i of block size b starts. */
  function BlockStart(i: int, b: int): int { i * b }

  /** Advancing j steps and then k more is advancing j + k steps. */
  lemma {:induction false} IterateAdd(x: int, j: nat, k: nat)
    ensures Iterate(x, j + k) == Iterate(Iterate(x, j), k)
  {
    if k > 0 {
      IterateAdd(x, j, k - 1);
    }
  }

  /** Each stream after the first starts exactly b steps after the one before it. */
  lemma NextBlockIsBStepsLater(i: nat, b: nat)
    ensures Iterate(X0, (i + 1) * b) == Iterate(Iterate(X0, i * b), b)
  {
    assert (i + 1) * b == i * b + b;
    IterateAdd(X0, i * b, b);
  }

  // The inverse of A modulo M, and the quotient that witnesses it.
  const InvA: int := 1265092085
  const InvQ: int := 9902

  lemma ModOfShift(x: int, k: int)
    requires 0 <= x < M
    ensures (x + M * k) % M == x
  {
  }

  /** Multiplying the next state by the inverse of A recovers the state. */
  lemma StepInvertible(x: int)
    requires 0 <= x < M
    ensures (InvA * Step(x)) % M == x
  {
    var q := (A * x) / M;
    assert A * x == M * q + Step(x);
    assert InvA * A == 1 + M * InvQ;
    var k := InvQ * x - InvA * q;
    calc {
      InvA * Step(x);
      InvA * (A * x - M * q);
      { assert InvA * (A * x - M * q) == (InvA * A) * x - M * (InvA * q); }
      (InvA * A) * x - M * (InvA * q);
      (1 + M * InvQ) * x - M * (InvA * q);
      { assert (1 + M * InvQ) * x == x + M * (InvQ * x); }
      x + M * k;
    }
    ModOfShift(x, k);
  }

  /** Distinct states in [0, m) have distinct successors: streams cannot merge. */
  lemma StepInjective(x: int, y: int)
    requires 0 <= x < M && 0 <= y < M
    requires Step(x) == Step(y)
    ensures x == y
  {
    StepInvertible(x);
    StepInvertible(y);
  }

  /** A state in (0, m) never steps to 0, so r = x / m stays strictly inside (0, 1). */
  lemma StepKeepsPositive(x: int)
    requires 0 < x < M
    ensures 0 < Step(x)
  {
    if Step(x) == 0 {
      assert Step(0) == 0;
      StepInjective(x, 0);
    }
  }

  /** Every state of the base sequence lies in (0, m). */
  lemma {:induction false} IteratePositive(x: int, k: nat)
    requires 0 < x < M
    ensures 0 < Iterate(x, k) < M
  {
    if k > 0 {
      IteratePositive(x, k - 1);
      StepKeepsPositive(Iterate(x, k - 1));
    }
  }

  /** Python's float `%` with a positive divisor: the result has the divisor's sign. */
  function RealMod(x: real, m: real): (r: real)
    requires 0.0 < m
    ensures 0.0 <= r < m
  {
    var q := x / m;
    var f := q.Floor as real;
    assert f <= q < f + 1.0;
    var d := q - f;
    assert 0.0 <= d < 1.0;
    assert x - m * f == m * d;
    NonNegProductBelow(m, d);
    x - m * f
  }

  lemma NonNegProductBelow(m: real, d: real)
    requires 0.0 < m && 0.0 <= d < 1.0
    ensures 0.0 <= m * d < m
  {
    assert m * (1.0 - d) > 0.0;
  }

  /**
   * `__lcm` as written (RandomNumberGeneration.py:33-36) on the state (xi, ri): the new xi is
   * computed from ri, not from xi, with Python's float `%`.
   */
  function LcmAsWritten(xi: real, ri: real): (next: (real, real))
  {
    var x := RealMod(A as real * ri + C as real, M as real);
    (x, x / M as real)
  }

  /**
   * A generator as constructed has ri = -1.0, so its first as-written step gives
   * xi = m - 16807 whatever the seed: every stream is the same stream.
   */
  lemma LcmAsWrittenIgnoresSeed(seed1: int, seed2: int)
    ensures LcmAsWritten(seed1 as real, -1.0) == LcmAsWritten(seed2 as real, -1.0)
    ensures LcmAsWritten(seed1 as real, -1.0).0 == (M - A) as real
  {
    var x := A as real * -1.0 + C as real;
    assert -1.0 <= x / M as real < 0.0;
    assert (x / M as real).Floor == -1;
  }

  class Generator {
    var xi: int
    const lmbda: real
    var ri: real

    /** RandomNumberGeneration.py:10-13: the rate is stored but not checked. */
    constructor (xi: int, lmbda: real)
      ensures this.xi == xi && this.lmbda == lmbda && ri == -1.0
    {
      this.xi := xi;
      this.lmbda := lmbda;
      ri := -1.0;
    }

    /** One step of the recurrence on xi; ri becomes xi / m. */
    method Lcm() returns (next: int)
      modifies this`xi, this`ri
      ensures xi == Step(old(xi)) && ri == xi as real / M as real && next == xi
    {
      xi := Step(xi);
      ri := xi as real / M as real;
      next := xi;
    }

    /** Advances the state exactly once and returns the transformed sample. */
    method GenerateRandomServiceTime(exponential: Transform) returns (t: Duration)
      modifies this`xi, this`ri
      ensures xi == Step(old(xi)) && ri == xi as real / M as real
      ensures t == exponential(ri, lmbda)
    {
      var _ := Lcm();
      t := exponential(ri, lmbda);
    }

    /**
     * Splits the base sequence from X0 into numBlocks streams of b steps each: key i * b holds
     * X0 advanced by i * b steps (no steps at all when b is negative, since the inner range is then empty).
     */
    method GenerateRandomNumberStreams(b: int, numBlocks: int) returns (seeds: map<int, int>)
      ensures seeds.Keys == {0} + (set i | 0 <= i < numBlocks :: BlockStart(i, b))
      ensures 0 in seeds && seeds[0] == X0
      ensures forall i :: 0 <= i < numBlocks ==> seeds[BlockStart(i, b)] == Iterate(X0, i * Pos(b))
    {
      var xj := X0;
      seeds := map[0 := X0];
      var currJ := 0;
      var i := 0;
      while i < numBlocks
        invariant 0 <= i && (i <= numBlocks || i == 0)
        invariant currJ == if i == 0 then 0 else BlockStart(i - 1, b)
        invariant xj == Iterate(X0, (if i == 0 then 0 else i - 1) * Pos(b))
        invariant seeds.Keys == {0} + (set k | 0 <= k < i :: BlockStart(k, b))
        invariant 0 in seeds && seeds[0] == X0
        invariant forall k :: 0 <= k < i ==> seeds[BlockStart(k, b)] == Iterate(X0, k * Pos(b))
      {
        ghost var before: nat := (if i == 0 then 0 else i - 1) * Pos(b);
        var j := currJ;
        while j < BlockStart(i, b)
          invariant currJ <= j
          invariant currJ <= BlockStart(i, b) ==> j <= BlockStart(i, b)
          invariant j == currJ || j <= BlockStart(i, b)
          invariant xj == Iterate(X0, before + (j - currJ))
        {
          // the call `self.__lcm(xj)` at RandomNumberGeneration.py:28: one step from xj
          xj := Step(xj);
          j := j + 1;
        }
        assert xj == Iterate(X0, i * Pos(b)) by {
          if i > 0 {
            assert BlockStart(i, b) == BlockStart(i - 1, b) + b by {
              assert i * b == (i - 1) * b + b;
            }
            assert (i - 1) * Pos(b) + Pos(b) == i * Pos(b);
            if b >= 0 {
              assert j == BlockStart(i, b);
              assert before + (j - currJ) == i * Pos(b);
            } else {
              assert j == currJ;
              assert i * Pos(b) == 0 && before == 0;
            }
          }
        }
        currJ := BlockStart(i, b);
        seeds := seeds[currJ := xj];
        i := i + 1;
      }
    }
  }
}
