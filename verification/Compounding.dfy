/** Compounded bounds on a price that moves by a bounded ratio at most once per window. */
module Compounding {
  import opened Division

  function Pow(b: nat, k: nat): nat { if k == 0 then 1 else b * Pow(b, k - 1) }

  /** One move multiplies the price by a ratio between lo/base and hi/base. */
  datatype Band = Band(lo: nat, base: nat, hi: nat)

  predicate Proper(band: Band) {
    band.lo <= band.base <= band.hi
  }

  predicate MoveWithin(band: Band, before: int, after: int) {
    band.lo * before <= band.base * after <= band.hi * before
  }

  /** k moves compounded. */
  ghost predicate WithinEnvelope(band: Band, start: int, price: int, k: nat) {
    start * Pow(band.lo, k) <= price * Pow(band.base, k) <= start * Pow(band.hi, k)
  }

  lemma {:induction false} EnvelopeWidens(band: Band, start: int, price: int, k: nat, k': nat)
    requires Proper(band) && start > 0 && price > 0 && k <= k'
    requires WithinEnvelope(band, start, price, k)
    ensures WithinEnvelope(band, start, price, k')
    decreases k' - k
  {
    if k < k' {
      WidenOnce(band.lo, band.base, start * Pow(band.lo, k), price * Pow(band.base, k));
      WidenOnce(band.base, band.hi, price * Pow(band.base, k), start * Pow(band.hi, k));
      PowStep(start, band.lo, k);
      PowStep(price, band.base, k);
      PowStep(start, band.hi, k);
      EnvelopeWidens(band, start, price, k + 1, k');
    }
  }

  lemma PowStep(x: int, b: nat, k: nat)
    requires x >= 0
    ensures x * Pow(b, k + 1) == b * (x * Pow(b, k))
    ensures x * Pow(b, k) >= 0
  {
    MulMono(0, x, Pow(b, k));
  }

  lemma WidenOnce(a: nat, b: nat, x: int, y: int)
    requires a <= b && 0 <= x <= y
    ensures a * x <= b * y
  {
    MulMono(a, b, x);
    MulMono(x, y, b);
  }

  lemma EnvelopeAtRest(band: Band, price: int, k: nat)
    requires Proper(band) && price > 0
    ensures WithinEnvelope(band, price, price, k)
  {
    assert WithinEnvelope(band, price, price, 0);
    EnvelopeWidens(band, price, price, 0, k);
  }

  /** One move in front of an envelope compounds once more. */
  lemma EnvelopeStep(band: Band, before: int, mid: int, price: int, k: nat)
    requires before > 0 && mid > 0 && price > 0
    requires MoveWithin(band, before, mid)
    requires WithinEnvelope(band, mid, price, k)
    ensures WithinEnvelope(band, before, price, k + 1)
  {
    Chain(band.lo * before, band.base * mid, Pow(band.lo, k));
    Chain(band.base * mid, band.hi * before, Pow(band.hi, k));
    Regroup(before, band.lo, Pow(band.lo, k));
    Regroup(mid, band.base, Pow(band.lo, k));
    Regroup(mid, band.base, Pow(band.hi, k));
    Regroup(before, band.hi, Pow(band.hi, k));
    PowStep(before, band.lo, k);
    PowStep(price, band.base, k);
    PowStep(before, band.hi, k);
    WidenOnce(band.base, band.base, mid * Pow(band.lo, k), price * Pow(band.base, k)) by {
      PowStep(mid, band.lo, k);
    }
    WidenOnce(band.base, band.base, price * Pow(band.base, k), mid * Pow(band.hi, k));
  }

  lemma Chain(x: int, y: int, p: nat)
    requires x <= y
    ensures x * p <= y * p
  {
  }

  lemma Regroup(x: int, b: int, p: int)
    ensures b * x * p == b * (x * p)
  {
  }

  /** At most one move fits in each window. */
  lemma EnvelopeThroughMove(band: Band, before: int, at: nat, mid: int, at': nat, price: int, end: nat, window: nat)
    requires Proper(band) && window > 0 && before > 0 && mid > 0 && price > 0
    requires at + window <= at' <= end
    requires MoveWithin(band, before, mid)
    requires WithinEnvelope(band, mid, price, (end - at') / window)
    ensures WithinEnvelope(band, before, price, (end - at) / window)
  {
    var k' := (end - at') / window;
    WindowUsed(end - at', end - at, window);
    EnvelopeStep(band, before, mid, price, k');
    EnvelopeWidens(band, before, price, k' + 1, (end - at) / window);
  }

  lemma WindowUsed(left: nat, span: nat, window: nat)
    requires window > 0 && left + window <= span
    ensures left / window + 1 <= span / window
  {
    FloorSpec(left, window);
    FloorUnique(left + window, window, left / window + 1);
    FloorMono(left + window, span, window);
  }
}
