/** Flooring and ceiling division of natural numbers: the few facts the
    fixed-point proofs are built from. */
module Division {

  lemma MulMono(a: int, b: int, c: nat)
    requires a <= b
    ensures a * c <= b * c
  {
  }

  lemma FloorSpec(a: nat, b: nat)
    requires b > 0
    ensures (a / b) * b + a % b == a
    ensures (a / b) * b <= a < (a / b) * b + b
    ensures 0 <= a % b < b
  {
  }

  lemma FloorLeq(a: nat, b: nat)
    requires b > 0
    ensures 0 <= a / b <= a
  {
    FloorSpec(a, b);
    if a / b > a {
      MulMono(1, b, a / b);
    }
  }

  /** The quotient is the only number with its defining bounds. */
  lemma FloorUnique(a: nat, b: nat, q: int)
    requires b > 0
    requires q * b <= a < q * b + b
    ensures a / b == q
    ensures a % b == a - q * b
  {
    FloorSpec(a, b);
    if a / b > q {
      MulMono(q + 1, a / b, b);
    } else if a / b < q {
      MulMono(a / b + 1, q, b);
    }
  }

  lemma FloorMono(a: nat, b: nat, d: nat)
    requires d > 0 && a <= b
    ensures a / d <= b / d
  {
    FloorSpec(a, d);
    FloorSpec(b, d);
    if a / d > b / d {
      MulMono(b / d + 1, a / d, d);
    }
  }

  /** Dividing twice is dividing once by the product. */
  lemma FloorTwice(a: nat, b: nat, c: nat)
    requires b > 0 && c > 0
    ensures b * c > 0
    ensures a / b / c == a / (b * c)
  {
    FloorSpec(a, b);
    FloorSpec(a / b, c);
    var q := a / b / c;
    MulMono(q * c, a / b, b);
    MulMono(a / b + 1, q * c + c, b);
    assert b * c > 0 by { MulMono(1, b, c); }
    assert (q * c) * b == q * (b * c);
    assert (q * c + c) * b == q * (b * c) + b * c;
    FloorUnique(a, b * c, q);
  }

  function CeilDiv(a: nat, b: nat): (r: nat)
    requires b > 0
    ensures r * b >= a
    ensures r == 0 || (r - 1) * b < a
  {
    FloorSpec(a + b - 1, b);
    (a + b - 1) / b
  }

  lemma CeilUnique(a: nat, b: nat, q: nat)
    requires b > 0
    requires q * b - b < a <= q * b
    ensures CeilDiv(a, b) == q
  {
    FloorUnique(a + b - 1, b, q);
  }

  lemma CeilByRemainder(a: nat, b: nat)
    requires b > 0
    ensures CeilDiv(a, b) == a / b + (if a % b == 0 then 0 else 1)
  {
    FloorSpec(a, b);
    CeilUnique(a, b, a / b + (if a % b == 0 then 0 else 1));
  }

  lemma CeilMono(a: nat, b: nat, d: nat)
    requires d > 0 && a <= b
    ensures CeilDiv(a, d) <= CeilDiv(b, d)
  {
    FloorMono(a + d - 1, b + d - 1, d);
  }

  /** Subtracting before a flooring division is subtracting a ceiling after it. */
  lemma FloorOfDifference(q: nat, e: nat, p: nat)
    requires p > 0 && e <= q * p
    ensures CeilDiv(e, p) <= q
    ensures (q * p - e) / p == q - CeilDiv(e, p)
  {
    var c := CeilDiv(e, p);
    if c > q {
      MulMono(q, c - 1, p);
    }
    assert (q - c) * p == q * p - c * p;
    assert (c - 1) * p == c * p - p;
    FloorUnique(q * p - e, p, q - c);
  }

  /** A rate bound tested after rounding up is the bound itself. */
  lemma CeilAtMost(a: nat, b: nat, k: nat)
    requires b > 0
    ensures CeilDiv(a, b) <= k <==> a <= k * b
  {
    var c := CeilDiv(a, b);
    if c <= k {
      MulMono(c, k, b);
    } else {
      MulMono(k, c - 1, b);
    }
  }
}
