/** The assembly routine mulDivUp, instruction by instruction.
    An EVM word is a natural number below 2^256. Multiplication and addition
    wrap around, and dividing by zero gives zero. */
module EvmWord {
  import opened Outcomes
  import opened Division

  type Word = w: nat | w < TWO_256 witness 0

  function Mul(x: Word, y: Word): Word { x * y % TWO_256 }

  function Add(x: Word, y: Word): Word { (x + y) % TWO_256 }

  function Div(x: Word, y: Word): Word {
    if y == 0 then 0 else (FloorLeq(x, y); x / y)
  }

  function Mod(x: Word, y: Word): Word { if y == 0 then 0 else x % y }

  function Gt(x: Word, y: Word): Word { if x > y then 1 else 0 }

  function IsZero(x: Word): Word { if x == 0 then 1 else 0 }

  /** The product before it wraps. */
  function Product(x: nat, y: nat): nat { x * y }

  /** The word tested by the `if` of the assembly block. */
  function RejectFlag(x: Word, y: Word, denominator: Word): Word {
    IsZero(Mul(denominator, IsZero(Mul(y, Gt(x, Div(MAX_UINT256, y))))))
  }

  function MulDivUp(x: Word, y: Word, denominator: Word): Result<Word> {
    if RejectFlag(x, y, denominator) != 0 then Revert(Panic)
    else Ok(Add(Gt(Mod(Mul(x, y), denominator), 0), Div(Mul(x, y), denominator)))
  }

  /** The single comparison in the guard is an exact overflow test. */
  lemma GuardIsOverflowTest(x: Word, y: Word)
    ensures Mul(y, Gt(x, Div(MAX_UINT256, y))) == 0 <==> Product(x, y) < TWO_256
  {
    TimesBit(y);
    if y == 0 {
      assert Product(x, y) == 0;
    } else {
      ExceedsQuotient(x, y, MAX_UINT256);
    }
  }

  lemma TimesBit(y: Word)
    ensures Mul(y, 1) == y && Mul(y, 0) == 0
  {
  }

  lemma ExceedsQuotient(x: nat, y: nat, max: nat)
    requires y > 0
    ensures x > max / y <==> Product(x, y) > max
  {
    FloorSpec(max, y);
    if x > max / y {
      MulMono(max / y + 1, x, y);
    } else {
      MulMono(x, max / y, y);
    }
  }

  /** The routine rejects exactly a zero denominator or an overflowing product,
      and otherwise yields the quotient rounded up. */
  lemma MulDivUpCorrect(x: Word, y: Word, denominator: Word)
    ensures MulDivUp(x, y, denominator) ==
            if denominator == 0 || Product(x, y) >= TWO_256 then Revert(Panic)
            else Ok(CeilWord(Product(x, y), denominator))
  {
    GuardIsOverflowTest(x, y);
    FlagSpec(x, y, denominator);
    if denominator != 0 && Product(x, y) < TWO_256 {
      UnwrappedProduct(x, y);
      CeilOfWord(Product(x, y), denominator);
    }
  }

  lemma UnwrappedProduct(x: Word, y: Word)
    requires Product(x, y) < TWO_256
    ensures Mul(x, y) == Product(x, y)
  {
  }

  /** Rounding up a word by a word stays a word. */
  function CeilWord(p: Word, d: Word): (r: Word)
    requires d != 0
    ensures r == CeilDiv(p, d)
  {
    CeilByRemainder(p, d);
    FloorLeq(p, d);
    if p % d != 0 then HalvedWhenInexact(p, d); CeilDiv(p, d) else CeilDiv(p, d)
  }

  lemma FlagSpec(x: Word, y: Word, denominator: Word)
    ensures RejectFlag(x, y, denominator) == 0 <==>
            denominator != 0 && Mul(y, Gt(x, Div(MAX_UINT256, y))) == 0
  {
    assert Mul(denominator, 1) == denominator;
    assert Mul(denominator, 0) == 0;
  }

  /** The last line of the routine, for a product that did not wrap. */
  lemma CeilOfWord(p: Word, d: Word)
    requires d != 0
    ensures Add(Gt(Mod(p, d), 0), Div(p, d)) == CeilWord(p, d)
  {
    CeilByRemainder(p, d);
    FloorLeq(p, d);
    if p % d != 0 {
      HalvedWhenInexact(p, d);
    }
  }

  lemma HalvedWhenInexact(p: Word, d: Word)
    requires d != 0 && p % d != 0
    ensures p / d < MAX_UINT256
  {
    FloorSpec(p, d);
    assert d >= 2;
    MulMono(2, d, p / d);
  }
}
