/** RWAOracleRateCheck: a price that may move by at most 1% per 23 hours. */
module RateOracle {
  import opened Outcomes
  import opened Compounding
  import opened Division
  import EvmWord

  const MIN_PRICE_UPDATE_WINDOW: nat := 23 * 60 * 60
  const BPS_DENOMINATOR: nat := 10_000
  const MAX_CHANGE_DIFF_BPS: nat := 100

  datatype State = State(rwaPrice: Int256, priceTimestamp: nat)

  function Init(initialPrice: Int256, now: nat): Result<State> {
    if initialPrice <= 0 then Revert(InvalidPrice) else Ok(State(initialPrice, now))
  }

  predicate Valid(o: State) {
    0 < o.rwaPrice
  }

  type ValidState = o: State | Valid(o) witness State(1, 0)

  /** _getPriceChangeBps, in EVM words and rounded up. */
  function PriceChangeBps(previousPrice: Int256, newPrice: Int256): Result<nat>
    requires 0 < previousPrice && 0 < newPrice
  {
    var change := if newPrice > previousPrice then newPrice - previousPrice else previousPrice - newPrice;
    EvmWord.MulDivUp(change, BPS_DENOMINATOR, previousPrice)
  }

  function SetPrice(o: State, hasRole: bool, newPrice: Int256, now: nat): Result<State>
    requires Valid(o)
  {
    var _ :- Need(hasRole, MissingRole);
    var _ :- Need(newPrice > 0, InvalidPrice);
    var elapsed :- CheckedSub(now, o.priceTimestamp);
    var _ :- Need(elapsed >= MIN_PRICE_UPDATE_WINDOW, PriceUpdateWindowViolation);
    var changeBps :- PriceChangeBps(o.rwaPrice, newPrice);
    var _ :- Need(changeBps <= MAX_CHANGE_DIFF_BPS, DeltaDifferenceConstraintViolation);
    Ok(State(newPrice, now))
  }

  function Distance(a: int, b: int): nat { if a > b then a - b else b - a }

  /** A deployment succeeds exactly at a positive price, which it stores with its time. */
  lemma InitExactly(initialPrice: Int256, now: nat)
    ensures Init(initialPrice, now).Ok? <==> 0 < initialPrice
    ensures initialPrice <= 0 ==> Init(initialPrice, now) == Revert(InvalidPrice)
    ensures Init(initialPrice, now).Ok? ==>
              Init(initialPrice, now).value.rwaPrice == initialPrice && Init(initialPrice, now).value.priceTimestamp == now
  {
  }

  /** The whole acceptance condition, without words or rounding, and what is stored. */
  lemma AcceptsIff(o: State, hasRole: bool, newPrice: Int256, now: nat)
    requires Valid(o)
    ensures SetPrice(o, hasRole, newPrice, now).Ok? <==>
            && hasRole
            && newPrice > 0
            && now >= o.priceTimestamp + 82_800
            && 10_000 * Distance(newPrice, o.rwaPrice) < TWO_256
            && 10_000 * Distance(newPrice, o.rwaPrice) <= 100 * o.rwaPrice
    ensures SetPrice(o, hasRole, newPrice, now).Ok? ==>
              var o' := SetPrice(o, hasRole, newPrice, now).value;
              o'.rwaPrice == newPrice && o'.priceTimestamp == now
  {
    if newPrice > 0 {
      var change := Distance(newPrice, o.rwaPrice);
      EvmWord.MulDivUpCorrect(change, BPS_DENOMINATOR, o.rwaPrice);
      CeilAtMost(change * BPS_DENOMINATOR, o.rwaPrice, MAX_CHANGE_DIFF_BPS);
    }
  }

  /** Why a call is rejected: the first of these that applies. */
  lemma RejectsWith(o: State, hasRole: bool, newPrice: Int256, now: nat)
    requires Valid(o) && SetPrice(o, hasRole, newPrice, now).Revert?
    ensures SetPrice(o, hasRole, newPrice, now).error ==
            if !hasRole then MissingRole
            else if newPrice <= 0 then InvalidPrice
            else if o.priceTimestamp <= now < o.priceTimestamp + 82_800 then PriceUpdateWindowViolation
            else if now < o.priceTimestamp || 10_000 * Distance(newPrice, o.rwaPrice) >= TWO_256 then Panic
            else DeltaDifferenceConstraintViolation
  {
    if newPrice > 0 {
      EvmWord.MulDivUpCorrect(Distance(newPrice, o.rwaPrice), BPS_DENOMINATOR, o.rwaPrice);
    }
  }

  // ------------------------------------------------------------- the envelope over a run

  datatype Call = Call(hasRole: bool, newPrice: Int256, now: nat)

  /** A call that reverts leaves the oracle as it was. */
  function Exec(o: State, c: Call): (r: State)
    requires Valid(o)
    ensures Valid(r)
  {
    match SetPrice(o, c.hasRole, c.newPrice, c.now)
    case Ok(o') => o'
    case Revert(_) => o
  }

  function Run(o: State, calls: seq<Call>): (r: State)
    requires Valid(o)
    ensures Valid(r)
    decreases |calls|
  {
    if calls == [] then o else Run(Exec(o, calls[0]), calls[1..])
  }

  /** The state after a run holds the price and time of its last accepted call (-1 if
      none): every later call is one that this state rejects. */
  lemma {:induction false} RunHoldsLastAccepted(o: State, calls: seq<Call>) returns (k: int)
    requires Valid(o)
    ensures -1 <= k < |calls|
    ensures Run(o, calls) == if k == -1 then o else State(calls[k].newPrice, calls[k].now)
    ensures k >= 0 ==> SetPrice(Run(o, calls[..k]), calls[k].hasRole, calls[k].newPrice, calls[k].now).Ok?
    ensures forall i | k < i < |calls| ::
              SetPrice(Run(o, calls), calls[i].hasRole, calls[i].newPrice, calls[i].now).Revert?
    decreases |calls|
  {
    if calls == [] {
      k := -1;
    } else {
      var c := calls[0];
      var rest := RunHoldsLastAccepted(Exec(o, c), calls[1..]);
      AcceptsIff(o, c.hasRole, c.newPrice, c.now);
      k := if rest >= 0 || SetPrice(o, c.hasRole, c.newPrice, c.now).Ok? then rest + 1 else -1;
      if rest >= 0 {
        assert calls[..k][1..] == calls[1..][..rest];
      } else {
        assert calls[..0] == [];
      }
      assert forall i | 0 < i < |calls| :: calls[i] == calls[1..][i - 1];
    }
  }

  /** 1% a move. */
  const BAND := Band(99, 100, 101)

  /** One call moves the price by at most 1%, and only after a full window. */
  lemma OneCall(o: State, c: Call)
    requires Valid(o)
    ensures o.priceTimestamp <= Exec(o, c).priceTimestamp
    ensures Exec(o, c) != o ==>
              && Exec(o, c).priceTimestamp == c.now >= o.priceTimestamp + 82_800
              && MoveWithin(BAND, o.rwaPrice, Exec(o, c).rwaPrice)
  {
    AcceptsIff(o, c.hasRole, c.newPrice, c.now);
  }

  /** In any run, whatever is attempted and by whomever, a price T seconds after the
      stored one lies within floor(T / 23h) compounded steps of 1%. Every call of the
      run happens no later than `end`. */
  lemma {:induction false} RateEnvelope(o: State, calls: seq<Call>, end: nat)
    requires Valid(o) && o.priceTimestamp <= end
    requires forall i :: 0 <= i < |calls| ==> calls[i].now <= end
    ensures WithinEnvelope(BAND, o.rwaPrice, Run(o, calls).rwaPrice, (end - o.priceTimestamp) / 82_800)
    decreases |calls|
  {
    if calls == [] {
      EnvelopeAtRest(BAND, o.rwaPrice, (end - o.priceTimestamp) / MIN_PRICE_UPDATE_WINDOW);
    } else {
      var o' := Exec(o, calls[0]);
      OneCall(o, calls[0]);
      RateEnvelope(o', calls[1..], end);
      if o' != o {
        EnvelopeThroughMove(BAND, o.rwaPrice, o.priceTimestamp, o'.rwaPrice, o'.priceTimestamp,
                            Run(o, calls).rwaPrice, end, MIN_PRICE_UPDATE_WINDOW);
      }
    }
  }
}

/** The oracle as the contract it is: two fields updated in place. */
module RateOracleContract {
  import opened Outcomes
  import Spec = RateOracle

  class RWAOracleRateCheck {
    var rwaPrice: Int256
    var priceTimestamp: nat

    function Snapshot(): Spec.State
      reads this
    {
      Spec.State(rwaPrice, priceTimestamp)
    }

    predicate Valid()
      reads this
    {
      Spec.Valid(Snapshot())
    }

    /** A reverting deployment is a constructor that cannot be called. */
    constructor (initialPrice: Int256, now: nat)
      requires 0 < initialPrice
      ensures Valid() && Spec.Init(initialPrice, now) == Ok(Snapshot())
    {
      rwaPrice := initialPrice;
      priceTimestamp := now;
    }

    method SetPrice(hasRole: bool, newPrice: Int256, now: nat) returns (r: Result<()>)
      requires Valid()
      modifies this
      ensures Valid() && Snapshot() == Spec.Exec(old(Snapshot()), Spec.Call(hasRole, newPrice, now))
      ensures r.Ok? <==> Spec.SetPrice(old(Snapshot()), hasRole, newPrice, now).Ok?
      ensures r.Revert? ==> Spec.SetPrice(old(Snapshot()), hasRole, newPrice, now) == Revert(r.error)
    {
      if !hasRole {
        return Revert(MissingRole);
      }
      if newPrice <= 0 {
        return Revert(InvalidPrice);
      }
      if now < priceTimestamp {
        return Revert(Panic);
      }
      if now - priceTimestamp < Spec.MIN_PRICE_UPDATE_WINDOW {
        return Revert(PriceUpdateWindowViolation);
      }
      var changeBps :- Spec.PriceChangeBps(rwaPrice, newPrice);
      if changeBps > Spec.MAX_CHANGE_DIFF_BPS {
        return Revert(DeltaDifferenceConstraintViolation);
      }
      rwaPrice := newPrice;
      priceTimestamp := now;
      return Ok(());
    }
  }
}
