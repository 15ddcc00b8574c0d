/** The suggested size of the next block: a share is taken off for every batch that is queued. */
module Throttle {

  // The size less the share that is taken off.
  function Reduced(size: nat, factor: nat): (r: nat)
    requires factor >= 1
    ensures r <= size
  {
    DivMod(size, factor);
    size - size / factor
  }

  function Throttled(maxSize: nat, factor: nat, queued: nat): (r: nat)
    requires factor >= 1
  {
    if queued == 0 then maxSize else Reduced(Throttled(maxSize, factor, queued - 1), factor)
  }

  function Pow(base: nat, n: nat): nat {
    if n == 0 then 1 else base * Pow(base, n - 1)
  }

  lemma {:induction false} DivMod(size: nat, factor: nat)
    requires factor >= 1
    ensures size == size / factor * factor + size % factor && 0 <= size / factor <= size
  {
    var a := size / factor;
    assert a <= a * factor;
  }

  // One step leaves `factor - 1` of `factor` parts, rounded up by less than one part.
  lemma {:induction false} OneStep(size: nat, factor: nat)
    requires factor >= 1
    ensures var next := Reduced(size, factor);
            && (factor - 1) * size <= factor * next <= (factor - 1) * size + (factor - 1)
            && (next < factor - 1 ==> next == size)
  {
    DivMod(size, factor);
    Parts(size, factor, size / factor, size % factor);
  }

  lemma {:induction false} Parts(size: nat, factor: nat, a: nat, b: nat)
    requires factor >= 1 && size == a * factor + b && b < factor && a <= size
    ensures factor * (size - a) == (factor - 1) * size + b
    ensures size - a < factor - 1 ==> a == 0
  {
    assert size - a == a * (factor - 1) + b;
    assert factor * (size - a) == factor * size - a * factor;
    assert a >= 1 ==> a * (factor - 1) >= factor - 1;
  }

  /**
   With `q` batches queued the size is the `q`-fold share of the maximum, rounded up by less than
   the factor, and throttling alone never takes it below the factor less one.
   */
  lemma {:induction false} ThrottleBounds(maxSize: nat, factor: nat, q: nat)
    requires factor >= 1
    ensures var s := Throttled(maxSize, factor, q);
            && s * Pow(factor, q) >= maxSize * Pow(factor - 1, q)
            && (s - (factor - 1)) * Pow(factor, q) <= maxSize * Pow(factor - 1, q)
            && (s >= maxSize || s >= factor - 1)
  {
    hide Reduced;
    if q > 0 {
      ThrottleBounds(maxSize, factor, q - 1);
      var size, next := Throttled(maxSize, factor, q - 1), Throttled(maxSize, factor, q);
      OneStep(size, factor);
      NextBounds(maxSize, size, next, factor, Pow(factor, q - 1), Pow(factor - 1, q - 1));
    }
  }

  lemma {:induction false} NextBounds(maxSize: nat, size: nat, next: nat, factor: nat, p: nat, r: nat)
    requires factor >= 1 && (factor - 1) * size <= factor * next <= (factor - 1) * size + (factor - 1)
    requires size * p >= maxSize * r && (size - (factor - 1)) * p <= maxSize * r
    ensures next * (factor * p) >= maxSize * ((factor - 1) * r)
    ensures (next - (factor - 1)) * (factor * p) <= maxSize * ((factor - 1) * r)
  {
    LowerStep(size, next, factor, p, maxSize * r);
    UpperStep(size, next, factor, p, maxSize * r);
    assert (factor - 1) * (maxSize * r) == maxSize * ((factor - 1) * r);
  }

  lemma {:induction false} LowerStep(size: nat, next: nat, factor: nat, p: nat, share: nat)
    requires factor >= 1 && (factor - 1) * size <= factor * next && size * p >= share
    ensures next * (factor * p) >= (factor - 1) * share
  {
    assert next * (factor * p) == (factor * next) * p;
    assert (factor * next) * p >= ((factor - 1) * size) * p;
    assert ((factor - 1) * size) * p == (factor - 1) * (size * p);
  }

  lemma {:induction false} UpperStep(size: nat, next: nat, factor: nat, p: nat, share: nat)
    requires factor >= 1 && factor * next <= (factor - 1) * size + (factor - 1)
    requires (size - (factor - 1)) * p <= share
    ensures (next - (factor - 1)) * (factor * p) <= (factor - 1) * share
  {
    var d := factor - 1;
    assert factor * (next - d) <= d * (size - d);
    assert (next - d) * (factor * p) == (factor * (next - d)) * p;
    assert (factor * (next - d)) * p <= (d * (size - d)) * p;
    assert (d * (size - d)) * p == d * ((size - d) * p);
    assert d * ((size - d) * p) <= d * share;
  }

  /** A longer queue never means a larger block. */
  lemma {:induction false} ThrottleMonotone(maxSize: nat, factor: nat, q: nat, longer: nat)
    requires factor >= 1 && q <= longer
    ensures Throttled(maxSize, factor, longer) <= Throttled(maxSize, factor, q)
    decreases longer - q
  {
    hide Reduced;
    if q < longer {
      ThrottleMonotone(maxSize, factor, q, longer - 1);
    }
  }
}
