/**
 The worker's reference arithmetic (examples/gpu_counter.c): jumping a 32-bit linear congruential generator
 ahead by square-and-compose, and checksums that add up across checkpoint and resume.
 */
module GpuCounter {
  const WORD: nat := 0x1_0000_0000
  const DOUBLE_WORD: nat := 0x1_0000_0000_0000_0000

  const MULTIPLIER: nat := 1664525
  const INCREMENT: nat := 1013904223

  const ELEMENTS: nat := 16384
  const ROUNDS: nat := 4096
  const BATCHES: nat := 64

  // ---------------------------------------------------------------- 32-bit wrap-around

  function Wrap(x: nat): (w: nat)
    ensures w < WORD
  {
    x % WORD
  }

  lemma WrapUnique(x: nat, q: nat, r: nat)
    requires x == WORD * q + r && r < WORD
    ensures Wrap(x) == r
  {
  }

  lemma WrapSum(x: nat, y: nat)
    ensures Wrap(Wrap(x) + y) == Wrap(x + y)
  {
    var q := x / WORD;
    var s := Wrap(x) + y;
    assert x + y == WORD * (q + s / WORD) + s % WORD;
    WrapUnique(x + y, q + s / WORD, s % WORD);
  }

  lemma WrapProduct(x: nat, y: nat)
    ensures Wrap(Wrap(x) * y) == Wrap(x * y)
  {
    var q := x / WORD;
    var s := Wrap(x) * y;
    calc {
      x * y;
      (WORD * q + Wrap(x)) * y;
      WORD * q * y + s;
      WORD * (q * y) + s;
      WORD * (q * y + s / WORD) + s % WORD;
    }
    WrapUnique(x * y, q * y + s / WORD, s % WORD);
  }

  /** One unsigned 32-bit multiply-add. */
  function MulAdd(a: nat, x: nat, c: nat): nat {
    Wrap(a * x + c)
  }

  lemma WrapFactors(a: nat, x: nat)
    ensures Wrap(Wrap(a) * Wrap(x)) == Wrap(a * x)
  {
    hide Wrap;
    WrapProduct(a, Wrap(x));
    WrapProduct(x, a);
    assert Wrap(x) * a == a * Wrap(x) && x * a == a * x;
  }

  lemma WrapTerms(p: nat, c: nat)
    ensures Wrap(p + Wrap(c)) == Wrap(p + c) && Wrap(Wrap(p) + c) == Wrap(p + c)
  {
    WrapSum(c, p);
    WrapSum(p, c);
  }

  /** Wrapping the operands first does not change a wrapped multiply-add. */
  lemma WrapAffine(a: nat, x: nat, c: nat)
    ensures MulAdd(Wrap(a), Wrap(x), Wrap(c)) == MulAdd(a, x, c)
  {
    WrapFactors(a, x);
    hide Wrap;
    WrapTerms(Wrap(a) * Wrap(x), c);
    WrapTerms(a * x, c);
  }

  // ---------------------------------------------------------------- affine maps

  /** x maps to m * x + b, over unbounded integers. */
  datatype Affine = Affine(m: nat, b: nat)

  const IDENTITY := Affine(1, 0)
  const STEP := Affine(MULTIPLIER, INCREMENT)

  function At(f: Affine, x: nat): nat {
    f.m * x + f.b
  }

  /** `f` after `g`. */
  function After(f: Affine, g: Affine): Affine {
    Affine(f.m * g.m, f.m * g.b + f.b)
  }

  function Power(f: Affine, n: nat): Affine {
    if n == 0 then IDENTITY else After(f, Power(f, n - 1))
  }

  lemma AfterAt(f: Affine, g: Affine, x: nat)
    ensures At(After(f, g), x) == At(f, At(g, x))
  {
    calc {
      At(f, At(g, x));
      f.m * (g.m * x + g.b) + f.b;
      f.m * (g.m * x) + f.m * g.b + f.b;
      f.m * g.m * x + (f.m * g.b + f.b);
    }
  }

  lemma AfterAssociative(f: Affine, g: Affine, h: Affine)
    ensures After(After(f, g), h) == After(f, After(g, h))
  {
    calc {
      f.m * (g.m * h.b + g.b) + f.b;
      f.m * (g.m * h.b) + f.m * g.b + f.b;
      f.m * g.m * h.b + (f.m * g.b + f.b);
    }
    assert f.m * g.m * h.m == f.m * (g.m * h.m);
  }

  /** A power commutes with its base. */
  lemma {:induction false} PowerLast(f: Affine, n: nat)
    ensures After(f, Power(f, n)) == After(Power(f, n), f)
  {
    if n > 0 {
      PowerLast(f, n - 1);
      AfterAssociative(f, Power(f, n - 1), f);
    }
  }

  /** Squaring the base halves the exponent. */
  lemma {:induction false} PowerSquare(f: Affine, n: nat)
    ensures Power(After(f, f), n) == Power(f, 2 * n)
  {
    if n > 0 {
      PowerSquare(f, n - 1);
      AfterAssociative(f, f, Power(f, 2 * (n - 1)));
      assert Power(f, 2 * n) == After(f, Power(f, 2 * n - 1));
      assert Power(f, 2 * n - 1) == After(f, Power(f, 2 * (n - 1)));
    }
  }

  // ---------------------------------------------------------------- the generator

  /** One step of the generator on a 32-bit value. */
  function Next(x: nat): nat {
    Wrap(x * MULTIPLIER + INCREMENT)
  }

  function Iterate(x: nat, rounds: nat): nat {
    if rounds == 0 then Wrap(x) else Next(Iterate(x, rounds - 1))
  }

  lemma {:induction false} IterateIsPower(x: nat, rounds: nat)
    ensures Iterate(x, rounds) == Wrap(At(Power(STEP, rounds), x))
  {
    if rounds > 0 {
      IterateIsPower(x, rounds - 1);
      var f := Power(STEP, rounds - 1);
      AfterAt(STEP, f, x);
      WrapProduct(At(f, x), MULTIPLIER);
      WrapSum(Wrap(At(f, x)) * MULTIPLIER, INCREMENT);
      WrapSum(At(f, x) * MULTIPLIER, INCREMENT);
      assert At(STEP, At(f, x)) == At(f, x) * MULTIPLIER + INCREMENT;
    }
  }

  /**
   The square-and-compose loop. For every 32-bit round count and every starting value, one multiply-add
   with the returned coefficients is the generator iterated that many times.
   */
  method Coefficients(count: nat) returns (m: nat, b: nat)
    requires count < WORD
    ensures m < WORD && b < WORD
    ensures forall x :: MulAdd(m, x, b) == Iterate(x, count)
  {
    var rounds, a, c := count, MULTIPLIER, INCREMENT;
    m, b := 1, 0;
    ghost var base, done := STEP, IDENTITY;
    assert After(Power(STEP, count), IDENTITY) == Power(STEP, count);
    assert a == Wrap(base.m) && c == Wrap(base.b);
    hide After, Power, Wrap, MulAdd;
    while rounds > 0
      invariant m == Wrap(done.m) && b == Wrap(done.b) && a == Wrap(base.m) && c == Wrap(base.b)
      invariant After(Power(base, rounds), done) == Power(STEP, count)
    {
      HalveExponent(base, done, rounds);
      if rounds % 2 == 1 {
        WrapAfter(base, done);
        b := MulAdd(a, b, c);
        m := MulAdd(a, m, 0);
        done := After(base, done);
      }
      WrapAfter(base, base);
      c := MulAdd(a, c, c);
      a := MulAdd(a, a, 0);
      base := After(base, base);
      rounds := rounds / 2;
    }
    PowerZero(base, done);
    forall x ensures MulAdd(m, x, b) == Iterate(x, count) {
      JumpAhead(count, x);
    }
  }

  lemma PowerZero(base: Affine, done: Affine)
    ensures After(Power(base, 0), done) == done
  {
  }

  lemma WrapAfter(f: Affine, g: Affine)
    ensures MulAdd(Wrap(f.m), Wrap(g.b), Wrap(f.b)) == Wrap(After(f, g).b)
    ensures MulAdd(Wrap(f.m), Wrap(g.m), 0) == Wrap(After(f, g).m)
  {
    WrapAffine(f.m, g.b, f.b);
    WrapAffine(f.m, g.m, 0);
  }

  lemma WrapCoefficients(a: nat, x: nat, c: nat)
    ensures MulAdd(Wrap(a), x, Wrap(c)) == MulAdd(a, x, c)
  {
    WrapProduct(a, x);
    hide Wrap;
    WrapTerms(Wrap(a) * x, c);
    WrapTerms(a * x, c);
  }

  /** The wrapped coefficients of the iterated map do what the iteration does. */
  lemma JumpAhead(count: nat, x: nat)
    ensures var f := Power(STEP, count); MulAdd(Wrap(f.m), x, Wrap(f.b)) == Iterate(x, count)
  {
    hide Wrap, Power, Iterate;
    IterateIsPower(x, count);
    WrapCoefficients(Power(STEP, count).m, x, Power(STEP, count).b);
  }

  /** What one turn of the loop does to the exponent and the accumulated map. */
  lemma HalveExponent(base: Affine, done: Affine, rounds: nat)
    requires rounds > 0
    ensures var done' := if rounds % 2 == 1 then After(base, done) else done;
      After(Power(After(base, base), rounds / 2), done') == After(Power(base, rounds), done)
  {
    var k := rounds / 2;
    PowerSquare(base, k);
    if rounds % 2 == 1 {
      OddPower(base, done, k);
      hide After, Power;
      assert rounds == 2 * k + 1;
    } else {
      hide After, Power;
      assert rounds == 2 * k;
    }
  }

  lemma OddPower(base: Affine, done: Affine, k: nat)
    ensures After(Power(base, 2 * k), After(base, done)) == After(Power(base, 2 * k + 1), done)
  {
    PowerLast(base, 2 * k);
    assert Power(base, 2 * k + 1) == After(base, Power(base, 2 * k));
    hide After, Power;
    AfterAssociative(Power(base, 2 * k), base, done);
  }

  // ---------------------------------------------------------------- checksums

  /** The value the device must produce for one element. */
  function Expected(seed: nat, batch: nat, i: nat): (v: nat)
    ensures v < WORD
  {
    Iterate(Wrap(seed + batch * 17 + i), ROUNDS)
  }

  function BatchSum(seed: nat, batch: nat, count: nat): (s: nat)
    ensures s <= count * (WORD - 1)
  {
    if count == 0 then 0 else BatchSum(seed, batch, count - 1) + Expected(seed, batch, count - 1)
  }

  /** The checksum of batches `from` up to but excluding `last`. */
  function Checksum(seed: nat, from: nat, last: nat): (s: nat)
    requires from <= last
    ensures s <= (last - from) * (ELEMENTS * (WORD - 1))
    decreases last
  {
    if from == last then 0 else Checksum(seed, from, last - 1) + BatchSum(seed, last - 1, ELEMENTS)
  }

  /** Checksums add across any checkpoint. */
  lemma {:induction false} ChecksumSplit(seed: nat, from: nat, mid: nat, last: nat)
    requires from <= mid <= last
    ensures Checksum(seed, from, mid) + Checksum(seed, mid, last) == Checksum(seed, from, last)
    decreases last
  {
    if mid < last {
      ChecksumSplit(seed, from, mid, last - 1);
    }
  }

  /** No 64-bit overflow at the configured sizes, whatever the seed and the split. */
  lemma ChecksumFits(seed: nat, from: nat, last: nat)
    requires from <= last <= BATCHES
    ensures Checksum(seed, from, last) < DOUBLE_WORD
  {
    var each := ELEMENTS * (WORD - 1);
    assert (last - from) * each <= BATCHES * each;
  }

  /** `expected_batch`: the loop never leaves 64 bits, and its 32-bit arithmetic is the iterated generator. */
  method ExpectedBatch(seed: nat, batch: nat, count: nat) returns (sum: nat)
    requires seed < WORD && batch < WORD && count < WORD
    ensures sum == BatchSum(seed, batch, count) && sum < DOUBLE_WORD
  {
    var m, b := Coefficients(ROUNDS);
    sum := 0;
    var i := 0;
    while i < count
      invariant 0 <= i <= count && sum == BatchSum(seed, batch, i)
    {
      var x := Wrap(Wrap(seed + Wrap(batch * 17)) + i);
      WrapInput(seed, batch, i);
      sum := sum + MulAdd(m, x, b);
      i := i + 1;
    }
    assert count * (WORD - 1) < DOUBLE_WORD;
  }

  lemma WrapInput(seed: nat, batch: nat, i: nat)
    ensures Wrap(Wrap(seed + Wrap(batch * 17)) + i) == Wrap(seed + batch * 17 + i)
  {
    WrapSum(batch * 17, seed);
    WrapSum(seed + Wrap(batch * 17), i);
    WrapSum(seed + batch * 17, i);
  }

  /** `expected_prefix`. */
  method ExpectedPrefix(seed: nat, completed: nat) returns (sum: nat)
    requires seed < WORD && completed <= BATCHES
    ensures sum == Checksum(seed, 0, completed) && sum < DOUBLE_WORD
  {
    sum := 0;
    var batch := 0;
    while batch < completed
      invariant 0 <= batch <= completed && sum == Checksum(seed, 0, batch)
    {
      var more := ExpectedBatch(seed, batch, ELEMENTS);
      sum := sum + more;
      batch := batch + 1;
    }
    ChecksumFits(seed, 0, completed);
  }

  /** The worker loop from a checkpoint: resuming anywhere ends with the checksum of an uninterrupted run. */
  method Resume(seed: nat, completed: nat, checkpoint: nat) returns (sum: nat)
    requires seed < WORD && completed <= BATCHES && checkpoint == Checksum(seed, 0, completed)
    ensures sum == Checksum(seed, 0, BATCHES) && sum < DOUBLE_WORD
  {
    sum := checkpoint;
    var batch := completed;
    while batch < BATCHES
      invariant completed <= batch <= BATCHES
      invariant sum == checkpoint + Checksum(seed, completed, batch)
    {
      var more := ExpectedBatch(seed, batch, ELEMENTS);
      sum := sum + more;
      batch := batch + 1;
    }
    ChecksumSplit(seed, 0, completed, BATCHES);
    ChecksumFits(seed, 0, BATCHES);
  }
}
