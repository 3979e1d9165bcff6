/** The hub's fixed-point arithmetic: basis-point fees, and the exchange of
    collateral for fund tokens at an 18-decimal price. */
module FixedPoint {
  import opened Outcomes
  import opened Division

  const BPS_DENOMINATOR: nat := 10_000
  const WAD: nat := 1_000_000_000_000_000_000

  /** One collateral unit in the units in which prices multiply fund tokens. */
  function Scale(multiplier: nat): nat { multiplier * 1_000_000_000_000_000_000 }

  // ------------------------------------------------------------- the source's functions

  /** _getMintFees and _getRedemptionFees. */
  function Fee(amount: nat, bps: nat): Result<nat> {
    var product :- CheckedMul(amount, bps);
    CheckedDiv(product, BPS_DENOMINATOR)
  }

  /** _getMintAmountForPrice, with _scaleUp. */
  function MintAmountForPrice(multiplier: nat, deposit: nat, price: nat): Result<nat> {
    var scaledUp :- CheckedMul(deposit, multiplier);
    var amountE36 :- CheckedMul(scaledUp, WAD);
    CheckedDiv(amountE36, price)
  }

  /** _getRedemptionAmountForRwa, with _scaleDown. */
  function RedemptionAmountForRwa(multiplier: nat, burned: nat, price: nat): Result<nat> {
    var amountE36 :- CheckedMul(burned, price);
    var unscaled :- CheckedDiv(amountE36, WAD);
    CheckedDiv(unscaled, multiplier)
  }

  // ------------------------------------------------------------- what they mean

  /** Fund tokens worth `deposit` at `price`, rounded down. */
  function Minted(scale: nat, deposit: nat, price: nat): nat
    requires price > 0
  {
    deposit * scale / price
  }

  /** Collateral worth `burned` at `price`, rounded down. */
  function Redeemed(scale: nat, burned: nat, price: nat): nat
    requires scale > 0
  {
    burned * price / scale
  }

  /** Minting succeeds exactly when the price is set and the scaled deposit fits in
      a word, and then rounds once. */
  lemma MintAmountIsFloor(multiplier: nat, deposit: nat, price: nat)
    requires multiplier > 0
    ensures MintAmountForPrice(multiplier, deposit, price).Ok? <==>
            price != 0 && deposit * Scale(multiplier) <= MAX_UINT256
    ensures MintAmountForPrice(multiplier, deposit, price).Ok? ==>
              MintAmountForPrice(multiplier, deposit, price).value == Minted(Scale(multiplier), deposit, price)
  {
    assert deposit * multiplier * WAD == deposit * Scale(multiplier);
    MulMono(1, WAD, deposit * multiplier);
  }

  /** The two roundings of a redemption are one rounding by the product. */
  lemma RedemptionAmountIsFloor(multiplier: nat, burned: nat, price: nat)
    requires multiplier > 0
    ensures Scale(multiplier) > 0
    ensures RedemptionAmountForRwa(multiplier, burned, price).Ok? <==> burned * price <= MAX_UINT256
    ensures RedemptionAmountForRwa(multiplier, burned, price).Ok? ==>
              RedemptionAmountForRwa(multiplier, burned, price).value == Redeemed(Scale(multiplier), burned, price)
  {
    FloorTwice(burned * price, WAD, multiplier);
  }

  // ------------------------------------------------------------- round trips

  /** Minting and redeeming at one price loses exactly the rounded-up remainder of
      the mint; it never gains, and loses at most one unit when the price is at
      most one collateral unit per smallest fund token. */
  lemma MintThenRedeem(scale: nat, d: nat, p: nat)
    requires scale > 0 && p > 0
    ensures CeilDiv(d * scale % p, scale) <= d
    ensures Redeemed(scale, Minted(scale, d, p), p) == d - CeilDiv(d * scale % p, scale)
    ensures p <= scale ==> CeilDiv(d * scale % p, scale) <= 1
  {
    var e := d * scale % p;
    FloorSpec(d * scale, p);
    FloorOfDifference(d, e, scale);
    CeilAtMost(e, scale, 1);
  }

  /** The reverse trip loses the rounded-up remainder of the redemption. */
  lemma RedeemThenMint(scale: nat, r: nat, p: nat)
    requires scale > 0 && p > 0
    ensures CeilDiv(r * p % scale, p) <= r
    ensures Minted(scale, Redeemed(scale, r, p), p) == r - CeilDiv(r * p % scale, p)
    ensures CeilDiv(r * p % scale, p) <= CeilDiv(scale - 1, p)
  {
    var e := r * p % scale;
    FloorSpec(r * p, scale);
    FloorOfDifference(r, e, p);
    CeilMono(e, scale - 1, p);
  }

  // ------------------------------------------------------------- fees and splitting

  /** What is left of an amount after a fee of `bps` basis points. */
  function AfterFee(amount: nat, bps: nat): int {
    amount - amount * bps / 10_000
  }

  /** With fees of at most 100% the fee never exceeds the amount, a larger amount
      never leaves less, and the fee is everything exactly at 100% (or for nothing). */
  lemma AfterFeeMonotone(a: nat, b: nat, bps: nat)
    requires a <= b && bps <= BPS_DENOMINATOR
    ensures 0 <= AfterFee(a, bps) <= AfterFee(b, bps)
    ensures AfterFee(a, bps) == 0 <==> a == 0 || bps == BPS_DENOMINATOR
  {
    AfterFeeIsCeil(a, bps);
    AfterFeeIsCeil(b, bps);
    MulMono(a, b, BPS_DENOMINATOR - bps);
    CeilMono(a * (BPS_DENOMINATOR - bps), b * (BPS_DENOMINATOR - bps), BPS_DENOMINATOR);
    if a > 0 && bps < BPS_DENOMINATOR {
      MulMono(1, a, BPS_DENOMINATOR - bps);
      CeilAtMost(a * (BPS_DENOMINATOR - bps), BPS_DENOMINATOR, 0);
    }
  }

  /** Rounding the fee down rounds the remainder up. */
  lemma AfterFeeIsCeil(a: nat, bps: nat)
    requires bps <= BPS_DENOMINATOR
    ensures a * (BPS_DENOMINATOR - bps) >= 0
    ensures AfterFee(a, bps) == CeilDiv(a * (BPS_DENOMINATOR - bps), BPS_DENOMINATOR)
  {
    var net := a * (BPS_DENOMINATOR - bps);
    MulMono(0, a, BPS_DENOMINATOR - bps);
    assert net == a * BPS_DENOMINATOR - a * bps;
    FloorSpec(a * bps, BPS_DENOMINATOR);
    MulMono(bps, BPS_DENOMINATOR, a);
    FloorMono(a * bps, a * BPS_DENOMINATOR, BPS_DENOMINATOR);
    FloorUnique(a * BPS_DENOMINATOR, BPS_DENOMINATOR, a);
    CeilUnique(net, BPS_DENOMINATOR, AfterFee(a, bps));
  }

  function Sum(parts: seq<nat>): nat {
    if parts == [] then 0 else parts[0] + Sum(parts[1..])
  }

  function SumAfterFee(parts: seq<nat>, bps: nat): int {
    if parts == [] then 0 else AfterFee(parts[0], bps) + SumAfterFee(parts[1..], bps)
  }

  function SumMinted(scale: nat, parts: seq<nat>, price: nat): nat
    requires price > 0
  {
    if parts == [] then 0 else Minted(scale, parts[0], price) + SumMinted(scale, parts[1..], price)
  }

  /** Splitting a deposit into n parts saves the depositor at most n-1 units of fee,
      and never costs anything. */
  lemma {:induction false} SplitFees(parts: seq<nat>, bps: nat)
    ensures AfterFee(Sum(parts), bps) <= SumAfterFee(parts, bps)
    ensures parts != [] ==> SumAfterFee(parts, bps) <= AfterFee(Sum(parts), bps) + |parts| - 1
  {
    if parts != [] {
      SplitFees(parts[1..], bps);
      SplitFeeTwo(parts[0], Sum(parts[1..]), bps);
    }
  }

  lemma SplitFeeTwo(a: nat, b: nat, bps: nat)
    ensures 0 <= AfterFee(a, bps) + AfterFee(b, bps) - AfterFee(a + b, bps) <= 1
    ensures b == 0 ==> AfterFee(b, bps) == 0
  {
    // a fee is computed like a mint with the rate as scale
    SplitMintTwo(bps, a, b, BPS_DENOMINATOR);
  }

  /** Minting a deposit in n parts yields at most n-1 units less, and never more. */
  lemma {:induction false} SplitMints(scale: nat, parts: seq<nat>, price: nat)
    requires price > 0
    ensures SumMinted(scale, parts, price) <= Minted(scale, Sum(parts), price)
    ensures parts != [] ==> Minted(scale, Sum(parts), price) <= SumMinted(scale, parts, price) + |parts| - 1
  {
    if parts == [] {
      FloorUnique(0, price, 0);
    } else {
      SplitMints(scale, parts[1..], price);
      SplitMintTwo(scale, parts[0], Sum(parts[1..]), price);
    }
  }

  lemma SplitMintTwo(scale: nat, a: nat, b: nat, price: nat)
    requires price > 0
    ensures 0 <= Minted(scale, a + b, price) - Minted(scale, a, price) - Minted(scale, b, price) <= 1
    ensures b == 0 ==> Minted(scale, a + b, price) == Minted(scale, a, price)
  {
    FloorSpec(a * scale, price);
    FloorSpec(b * scale, price);
    FloorSpec((a + b) * scale, price);
    assert (a + b) * scale == a * scale + b * scale;
    var qa, qb := Minted(scale, a, price), Minted(scale, b, price);
    var r := a * scale % price + b * scale % price;
    assert (qa + qb) * price == qa * price + qb * price;
    if r < price {
      FloorUnique((a + b) * scale, price, qa + qb);
    } else {
      assert (qa + qb + 1) * price == (qa + qb) * price + price;
      FloorUnique((a + b) * scale, price, qa + qb + 1);
    }
  }
}
