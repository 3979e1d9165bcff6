/** RWAOracleExternalComparisonCheck: a price that must follow the move of a
    Chainlink feed, unless the feed itself moved implausibly far. */
module ComparisonOracle {
  import opened Outcomes
  import opened Compounding
  import opened Division

  const MAX_CL_WINDOW: nat := 25 * 60 * 60
  const BPS_DENOMINATOR: int := 10_000
  const MAX_CHANGE_DIFF_BPS: nat := 74
  const MAX_ABSOLUTE_DIFF_BPS: nat := 200
  const MIN_PRICE_UPDATE_WINDOW: nat := 23 * 60 * 60

  datatype Round = Round(roundId: nat, answer: Int256, startedAt: nat, updatedAt: nat, answeredInRound: nat)

  datatype State = State(rwaPrice: Int256, priceTimestamp: nat, lastSetRound: Round)

  // ------------------------------------------------------------- signed arithmetic

  /** Solidity's signed division: toward zero. */
  function Trunc(a: int, b: int): int
    requires b != 0
  {
    if a >= 0 then (if b > 0 then a / b else -(a / (-b)))
    else (if b > 0 then -((-a) / b) else (-a) / (-b))
  }

  function CheckedTrunc(a: int, b: int): Result<Int256> {
    if b == 0 then Revert(Panic) else CheckedInt(Trunc(a, b))
  }

  /** _getPriceChangeBps: every operation checked in 256 signed bits. */
  function PriceChangeBps(previousPrice: Int256, newPrice: Int256): Result<Int256> {
    var change :- CheckedInt(newPrice - previousPrice);
    var scaled :- CheckedInt(change * BPS_DENOMINATOR);
    CheckedTrunc(scaled, previousPrice)
  }

  /** _abs_unsigned: negating the smallest integer reverts. */
  function AbsUnsigned(x: Int256): Result<nat> {
    if x >= 0 then Ok(x) else if x == -TWO_255 then Revert(Panic) else Ok(-x)
  }

  function Abs(x: int): nat { if x >= 0 then x else -x }

  // ------------------------------------------------------------- the transition

  /** _getLatestChainlinkRoundData, on whatever the feed answers. */
  function LatestRound(feed: Round, now: nat): Result<Round> {
    if feed.answer < 0 || feed.roundId != feed.answeredInRound || feed.roundId == 0
       || feed.updatedAt == 0 || feed.updatedAt > now
    then Revert(CorruptedChainlinkResponse)
    else Ok(feed)
  }

  function FreshRound(feed: Round, now: nat): Result<Round> {
    var round :- LatestRound(feed, now);
    var deadline :- CheckedAdd(round.updatedAt, MAX_CL_WINDOW);
    var _ :- Need(now <= deadline, ChainlinkOraclePriceStale);
    Ok(round)
  }

  function Init(initialPrice: Int256, feedDecimals: nat, feed: Round, now: nat, admin: Address, setter: Address): Result<State> {
    var _ :- Need(admin != ZERO_ADDRESS && setter != ZERO_ADDRESS, InvalidAddress);
    var _ :- Need(feedDecimals == 8, CorruptedChainlinkResponse);
    var round :- FreshRound(feed, now);
    Ok(State(initialPrice, now, round))
  }

  /** The two price constraints of setPrice. */
  function CheckMoves(o: State, newPrice: Int256, answer: Int256): Result<()> {
    var rwaPriceChangeBps :- PriceChangeBps(o.rwaPrice, newPrice);
    var rwaMove :- AbsUnsigned(rwaPriceChangeBps);
    var _ :- Need(rwaMove <= MAX_ABSOLUTE_DIFF_BPS, AbsoluteDifferenceConstraintViolated);
    var chainlinkPriceChangeBps :- PriceChangeBps(o.lastSetRound.answer, answer);
    var chainlinkMove :- AbsUnsigned(chainlinkPriceChangeBps);
    if chainlinkMove <= MAX_ABSOLUTE_DIFF_BPS + MAX_CHANGE_DIFF_BPS then
      // both moves are below 300 here: neither the subtraction nor the negation can leave its range
      var changeDifferenceBps := Abs(rwaPriceChangeBps - chainlinkPriceChangeBps);
      Need(changeDifferenceBps <= MAX_CHANGE_DIFF_BPS, DeltaDifferenceConstraintViolation)
    else
      Ok(())
  }

  function SetPrice(o: State, hasRole: bool, newPrice: Int256, feed: Round, now: nat): Result<State> {
    var _ :- Need(hasRole, MissingRole);
    var _ :- Need(newPrice > 0, InvalidRWAPrice);
    var round :- FreshRound(feed, now);
    var _ :- Need(round.roundId != o.lastSetRound.roundId, ChainlinkRoundNotUpdated);
    var opens :- CheckedAdd(o.priceTimestamp, MIN_PRICE_UPDATE_WINDOW);
    var _ :- Need(now >= opens, PriceUpdateWindowViolation);
    var _ :- CheckMoves(o, newPrice, round.answer);
    Ok(State(newPrice, now, round))
  }

  // ------------------------------------------------------------- what an update can do

  /** The truncated change, in basis points, of a price moving from `old` to `new`. */
  function ChangeBps(old_: int, new_: int): int
    requires old_ > 0
  {
    Trunc((new_ - old_) * BPS_DENOMINATOR, old_)
  }

  lemma ChangeBpsMeaning(previousPrice: Int256, newPrice: Int256)
    requires previousPrice > 0 && newPrice >= 0
    ensures PriceChangeBps(previousPrice, newPrice).Ok? <==>
            -TWO_255 <= (newPrice - previousPrice) * BPS_DENOMINATOR < TWO_255
    ensures PriceChangeBps(previousPrice, newPrice).Ok? ==>
              PriceChangeBps(previousPrice, newPrice).value == ChangeBps(previousPrice, newPrice)
  {
    var a := (newPrice - previousPrice) * BPS_DENOMINATOR;
    FloorLeq(Abs(a), previousPrice);
  }

  /** The price constraints of an update, in one line, once nothing overflows. */
  predicate MovesAllowed(r: int, c: int) {
    Abs(r) <= 200 && (Abs(c) <= 274 ==> Abs(r - c) <= 74)
  }

  ghost predicate FitsBps(old_: int, new_: int) {
    -TWO_255 <= (new_ - old_) * BPS_DENOMINATOR < TWO_255
  }

  /** Feed conditions of an update: uncorrupted, recent, and a round not used before. */
  predicate FeedAllows(o: State, feed: Round, now: nat) {
    && feed.answer >= 0 && feed.roundId == feed.answeredInRound && feed.roundId != 0
    && 0 < feed.updatedAt <= now <= feed.updatedAt + 90_000 <= MAX_UINT256
    && feed.roundId != o.lastSetRound.roundId
  }

  /** A deployment succeeds exactly with real addresses, an 8-decimal feed and a valid,
      recent round, whatever the price; it stores price, time and round. */
  lemma InitExactly(initialPrice: Int256, feedDecimals: nat, feed: Round, now: nat, admin: Address, setter: Address)
    ensures var deployed := Init(initialPrice, feedDecimals, feed, now, admin, setter);
            && (deployed.Ok? <==>
                  && admin != ZERO_ADDRESS && setter != ZERO_ADDRESS && feedDecimals == 8
                  && feed.answer >= 0 && feed.roundId == feed.answeredInRound && feed.roundId != 0
                  && 0 < feed.updatedAt <= now <= feed.updatedAt + 90_000 <= MAX_UINT256)
            && (deployed.Ok? ==>
                  && deployed.value.rwaPrice == initialPrice && deployed.value.priceTimestamp == now
                  && deployed.value.lastSetRound == feed)
            && (deployed.Revert? ==>
                  deployed.error ==
                  if admin == ZERO_ADDRESS || setter == ZERO_ADDRESS then InvalidAddress
                  else if feedDecimals != 8 || feed.answer < 0 || feed.roundId != feed.answeredInRound || feed.roundId == 0
                          || feed.updatedAt == 0 || feed.updatedAt > now then CorruptedChainlinkResponse
                  else if feed.updatedAt + 90_000 > MAX_UINT256 then Panic
                  else ChainlinkOraclePriceStale)
  {
  }

  /** The absolute value exists except for the smallest integer, which panics. */
  lemma AbsUnsignedExactly(x: Int256)
    ensures AbsUnsigned(x) == if x == -TWO_255 then Revert(Panic) else Ok(Abs(x))
  {
  }

  /** The whole acceptance condition, from any state that can be stored, and what an
      accepted update stores: the new price, its time, and the feed's round as it came. */
  lemma AcceptsIff(o: State, hasRole: bool, newPrice: Int256, feed: Round, now: nat)
    requires o.lastSetRound.answer >= 0
    ensures SetPrice(o, hasRole, newPrice, feed, now).Ok? <==>
            && hasRole && newPrice > 0
            && o.rwaPrice > 0 && o.lastSetRound.answer > 0
            && FeedAllows(o, feed, now)
            && o.priceTimestamp + 82_800 <= now
            && o.priceTimestamp + 82_800 <= MAX_UINT256
            && FitsBps(o.rwaPrice, newPrice)
            && FitsBps(o.lastSetRound.answer, feed.answer)
            && MovesAllowed(ChangeBps(o.rwaPrice, newPrice), ChangeBps(o.lastSetRound.answer, feed.answer))
    ensures SetPrice(o, hasRole, newPrice, feed, now).Ok? ==>
              var o' := SetPrice(o, hasRole, newPrice, feed, now).value;
              o'.rwaPrice == newPrice && o'.priceTimestamp == now && o'.lastSetRound == feed
  {
    if newPrice > 0 && feed.answer >= 0 {
      if o.rwaPrice <= 0 || o.lastSetRound.answer == 0 {
        BadStateRejects(o, newPrice, feed.answer);
      } else {
        ChangeBpsMeaning(o.rwaPrice, newPrice);
        ChangeBpsMeaning(o.lastSetRound.answer, feed.answer);
      }
    }
  }

  /** Why a call is rejected before prices are compared: the first of these that applies. */
  lemma RejectsBeforeMoves(o: State, hasRole: bool, newPrice: Int256, feed: Round, now: nat)
    ensures var r := SetPrice(o, hasRole, newPrice, feed, now);
            if !hasRole then r == Revert(MissingRole)
            else if newPrice <= 0 then r == Revert(InvalidRWAPrice)
            else if !(&& feed.answer >= 0 && feed.roundId == feed.answeredInRound && feed.roundId != 0
                      && 0 < feed.updatedAt <= now) then r == Revert(CorruptedChainlinkResponse)
            else if feed.updatedAt + 90_000 > MAX_UINT256 then r == Revert(Panic)
            else if now > feed.updatedAt + 90_000 then r == Revert(ChainlinkOraclePriceStale)
            else if feed.roundId == o.lastSetRound.roundId then r == Revert(ChainlinkRoundNotUpdated)
            else if o.priceTimestamp + 82_800 > MAX_UINT256 then r == Revert(Panic)
            else if now < o.priceTimestamp + 82_800 then r == Revert(PriceUpdateWindowViolation)
            else r.Revert? ==>
                   r.error in {Panic, AbsoluteDifferenceConstraintViolated, DeltaDifferenceConstraintViolation}
  {
  }

  /** Why the comparison rejects: overflow, then the price's own move, then overflow of
      the feed's, then the distance of the two. */
  lemma MovesRejectWith(o: State, newPrice: Int256, answer: Int256)
    requires o.rwaPrice > 0 && o.lastSetRound.answer > 0 && newPrice > 0 && answer >= 0
    ensures var checked := CheckMoves(o, newPrice, answer);
            if !FitsBps(o.rwaPrice, newPrice) then checked == Revert(Panic)
            else if Abs(ChangeBps(o.rwaPrice, newPrice)) > 200 then checked == Revert(AbsoluteDifferenceConstraintViolated)
            else if !FitsBps(o.lastSetRound.answer, answer) then checked == Revert(Panic)
            else if MovesAllowed(ChangeBps(o.rwaPrice, newPrice), ChangeBps(o.lastSetRound.answer, answer)) then checked.Ok?
            else checked == Revert(DeltaDifferenceConstraintViolation)
  {
    ChangeBpsMeaning(o.rwaPrice, newPrice);
    ChangeBpsMeaning(o.lastSetRound.answer, answer);
  }

  /** From a price that is not positive every change is a division by zero or a fall of
      more than 100%; from an answer of zero the feed's change is a division by zero. */
  lemma BadStateRejects(o: State, newPrice: Int256, answer: Int256)
    requires newPrice > 0 && (o.rwaPrice <= 0 || o.lastSetRound.answer == 0)
    ensures CheckMoves(o, newPrice, answer).Revert?
  {
    if o.rwaPrice < 0 {
      FallsBelow((newPrice - o.rwaPrice) * BPS_DENOMINATOR, 0 - o.rwaPrice);
    }
  }

  lemma FallsBelow(rise: nat, size: nat)
    requires size > 0 && rise >= 10_000 * size
    ensures Trunc(rise, 0 - size) <= -10_000
  {
    FloorMono(10_000 * size, rise, size);
    FloorUnique(10_000 * size, size, 10_000);
  }

  /** Truncation costs less than one basis point on each side: an accepted update
      moves the price by less than 2.01%, and keeps the two relative moves within
      0.76% of each other (0.75% when they have the same sign) unless the feed's own
      move was set aside. */
  lemma AcceptedStepBound(o: State, newPrice: Int256, feed: Round, now: nat)
    requires o.lastSetRound.answer >= 0 && SetPrice(o, true, newPrice, feed, now).Ok?
    ensures o.rwaPrice > 0 && o.lastSetRound.answer > 0
    ensures var R, C := o.rwaPrice, o.lastSetRound.answer;
            var dR, dC := newPrice - R, feed.answer - C;
            && 10_000 * Abs(dR) < 201 * R
            && (Abs(ChangeBps(C, feed.answer)) <= 274 ==>
                  && 10_000 * Abs(dR * C - dC * R) < 76 * (R * C)
                  && ((dR >= 0 && dC >= 0) || (dR <= 0 && dC <= 0) ==> 10_000 * Abs(dR * C - dC * R) < 75 * (R * C)))
  {
    AcceptsIff(o, true, newPrice, feed, now);
    var R, C := o.rwaPrice, o.lastSetRound.answer;
    var dR, dC := newPrice - R, feed.answer - C;
    var r, c := ChangeBps(R, newPrice), ChangeBps(C, feed.answer);
    TruncatedPart(10_000 * dR, R);
    TruncatedPart(10_000 * dC, C);
    var e, f := 10_000 * dR - r * R, 10_000 * dC - c * C;
    AbsoluteBound(dR, R, r, e);
    if Abs(c) <= 274 {
      CrossMove(dR, R, r, dC, C, c);
      RelativeBound(dR * C - dC * R, r - c, e, f, R, C);
    }
  }

  /** What truncation drops is smaller than the divisor and has the dividend's sign. */
  lemma TruncatedPart(a: int, b: int)
    requires b > 0
    ensures -b < a - Trunc(a, b) * b < b
    ensures a >= 0 ==> a - Trunc(a, b) * b >= 0
    ensures a <= 0 ==> a - Trunc(a, b) * b <= 0
  {
    var n := Abs(a);
    FloorSpec(n, b);
    assert (-(n / b)) * b == -((n / b) * b);
  }

  lemma AbsoluteBound(dR: int, R: int, r: int, e: int)
    requires R > 0 && Abs(r) <= 200 && -R < e < R
    requires 10_000 * dR == r * R + e
    ensures 10_000 * Abs(dR) < 201 * R
  {
    MulMono(r, 200, R);
    MulMono(-200, r, R);
  }

  /** The relative moves over a common denominator, truncated and truncated-away parts apart. */
  lemma CrossMove(dR: int, R: int, r: int, dC: int, C: int, c: int)
    ensures 10_000 * (dR * C - dC * R)
            == (r - c) * (R * C) + ((10_000 * dR - r * R) * C - (10_000 * dC - c * C) * R)
  {
    assert (r - c) * (R * C) == r * R * C - c * C * R;
  }

  lemma RelativeBound(cross: int, k: int, e: int, f: int, R: int, C: int)
    requires R > 0 && C > 0 && -R < e < R && -C < f < C && Abs(k) <= 74
    requires 10_000 * cross == k * (R * C) + (e * C - f * R)
    ensures 10_000 * Abs(cross) < 76 * (R * C)
    ensures (e >= 0 && f >= 0) || (e <= 0 && f <= 0) ==> 10_000 * Abs(cross) < 75 * (R * C)
  {
    var RC := R * C;
    ScaledPart(e, R, C);
    ScaledPart(f, C, R);
    assert RC > 0 by { MulMono(1, R, C); }
    MulMono(-74, k, RC);
    MulMono(k, 74, RC);
  }

  lemma ScaledPart(e: int, R: int, C: int)
    requires R > 0 && C > 0 && -R < e < R
    ensures -(R * C) < e * C < R * C
    ensures e >= 0 ==> e * C >= 0
    ensures e <= 0 ==> e * C <= 0
  {
    MulMono(e + 1, R, C);
    MulMono(1 - R, e, C);
  }

  // ------------------------------------------------------------- runs

  datatype Call = Call(hasRole: bool, newPrice: Int256, feed: Round, now: nat)

  /** A call that reverts leaves the oracle as it was. */
  function Exec(o: State, c: Call): State {
    match SetPrice(o, c.hasRole, c.newPrice, c.feed, c.now)
    case Ok(o') => o'
    case Revert(_) => o
  }

  function Run(o: State, calls: seq<Call>): State
    decreases |calls|
  {
    if calls == [] then o else Run(Exec(o, calls[0]), calls[1..])
  }

  /** The state after a run holds the price, time and round of its last accepted call
      (-1 if none): every later call is one that this state rejects. */
  lemma {:induction false} RunHoldsLastAccepted(o: State, calls: seq<Call>) returns (k: int)
    requires o.lastSetRound.answer >= 0
    ensures -1 <= k < |calls|
    ensures Run(o, calls) == if k == -1 then o else State(calls[k].newPrice, calls[k].now, calls[k].feed)
    ensures k >= 0 ==>
              SetPrice(Run(o, calls[..k]), calls[k].hasRole, calls[k].newPrice, calls[k].feed, calls[k].now).Ok?
    ensures forall i | k < i < |calls| ::
              SetPrice(Run(o, calls), calls[i].hasRole, calls[i].newPrice, calls[i].feed, calls[i].now).Revert?
    decreases |calls|
  {
    if calls == [] {
      k := -1;
    } else {
      var c := calls[0];
      AcceptsIff(o, c.hasRole, c.newPrice, c.feed, c.now);
      var rest := RunHoldsLastAccepted(Exec(o, c), calls[1..]);
      k := if rest >= 0 || SetPrice(o, c.hasRole, c.newPrice, c.feed, c.now).Ok? then rest + 1 else -1;
      if rest >= 0 {
        assert calls[..k][1..] == calls[1..][..rest];
      } else {
        assert calls[..0] == [];
      }
      assert forall i | 0 < i < |calls| :: calls[i] == calls[1..][i - 1];
    }
  }

  /** Less than 2.01% a move. */
  const BAND := Band(9_799, 10_000, 10_201)

  /** An oracle that no call will ever change. */
  ghost predicate LockedForever(o: State) {
    forall calls: seq<Call> :: Run(o, calls) == o
  }

  predicate Updatable(o: State) {
    o.rwaPrice > 0 && o.lastSetRound.answer > 0
  }

  lemma {:induction false} NeverUpdated(o: State, calls: seq<Call>)
    requires o.lastSetRound.answer >= 0 && !Updatable(o)
    ensures Run(o, calls) == o
    decreases |calls|
  {
    if calls != [] {
      AcceptsIff(o, calls[0].hasRole, calls[0].newPrice, calls[0].feed, calls[0].now);
      NeverUpdated(o, calls[1..]);
    }
  }

  /** A fresh round, reported at the very moment the update window opens. */
  function NextRound(o: State, answer: Int256): Round {
    var id := if o.lastSetRound.roundId == 1 then 2 else 1;
    Round(id, answer, 0, o.priceTimestamp + MIN_PRICE_UPDATE_WINDOW, id)
  }

  /** Room for one more update before the clock reaches its last word. */
  predicate ClockLasts(o: State) {
    o.priceTimestamp + MIN_PRICE_UPDATE_WINDOW + MAX_CL_WINDOW <= MAX_UINT256
  }

  /** The same price again is accepted if the feed repeats its answer, or falls to zero. */
  lemma RepeatedPriceAccepted(o: State, answer: Int256) returns (c: Call)
    requires Updatable(o) && ClockLasts(o)
    requires answer == o.lastSetRound.answer || (answer == 0 && FitsBps(o.lastSetRound.answer, 0))
    ensures SetPrice(o, c.hasRole, c.newPrice, c.feed, c.now)
            == Ok(State(o.rwaPrice, o.priceTimestamp + MIN_PRICE_UPDATE_WINDOW, NextRound(o, answer)))
    ensures c.hasRole && c.newPrice == o.rwaPrice && c.feed == NextRound(o, answer)
  {
    c := Call(true, o.rwaPrice, NextRound(o, answer), o.priceTimestamp + MIN_PRICE_UPDATE_WINDOW);
    var C := o.lastSetRound.answer;
    if answer == 0 {
      assert Trunc((0 - C) * BPS_DENOMINATOR, C) == -10_000 by {
        FloorUnique(C * 10_000, C, 10_000);
      }
    }
    AcceptsIff(o, true, o.rwaPrice, c.feed, c.now);
  }

  /** Some update is possible exactly from a positive price and a positive answer. */
  lemma UpdatableIff(o: State)
    requires o.lastSetRound.answer >= 0 && ClockLasts(o)
    ensures (exists role, price, feed, now :: SetPrice(o, role, price, feed, now).Ok?) <==> Updatable(o)
  {
    if Updatable(o) {
      var c := RepeatedPriceAccepted(o, o.lastSetRound.answer);
      assert SetPrice(o, c.hasRole, c.newPrice, c.feed, c.now).Ok?;
    } else if exists role, price, feed, now :: SetPrice(o, role, price, feed, now).Ok? {
      var role, price, feed, now :| SetPrice(o, role, price, feed, now).Ok?;
      AcceptsIff(o, role, price, feed, now);
    }
  }

  /** The oracle is locked for ever exactly when its price or its answer is not positive. */
  lemma LockedIff(o: State)
    requires o.lastSetRound.answer >= 0 && ClockLasts(o)
    ensures LockedForever(o) <==> !Updatable(o)
  {
    if Updatable(o) {
      var c := RepeatedPriceAccepted(o, o.lastSetRound.answer);
      assert [c][1..] == [];
      assert Run(o, [c]) == Exec(o, c) != o;
    } else {
      forall calls: seq<Call> ensures Run(o, calls) == o {
        NeverUpdated(o, calls);
      }
    }
  }

  /** A deployment is locked from the start exactly when its initial price is not
      positive or the feed answers zero; nothing in the constructor rules that out. */
  lemma DeployedLockedIff(initialPrice: Int256, feed: Round, now: nat, admin: Address, setter: Address)
    requires Init(initialPrice, 8, feed, now, admin, setter).Ok?
    requires now + MIN_PRICE_UPDATE_WINDOW + MAX_CL_WINDOW <= MAX_UINT256
    ensures LockedForever(Init(initialPrice, 8, feed, now, admin, setter).value) <==> initialPrice <= 0 || feed.answer == 0
    ensures forall price: Int256 :: Init(price, 8, feed, now, admin, setter).Ok?
    ensures Init(initialPrice, 8, feed.(answer := 0), now, admin, setter).Ok?
  {
    LockedIff(Init(initialPrice, 8, feed, now, admin, setter).value);
  }

  /** Every oracle that can be updated is one accepted update away from being locked:
      the feed's fall to zero is too large to be compared, so it is set aside and stored. */
  lemma OneUpdateFromLocked(o: State) returns (c: Call)
    requires Updatable(o) && FitsBps(o.lastSetRound.answer, 0)
    requires o.priceTimestamp + 2 * MIN_PRICE_UPDATE_WINDOW + MAX_CL_WINDOW <= MAX_UINT256
    ensures SetPrice(o, c.hasRole, c.newPrice, c.feed, c.now).Ok? && Exec(o, c).lastSetRound.answer == 0
    ensures LockedForever(Exec(o, c))
  {
    c := RepeatedPriceAccepted(o, 0);
    LockedIff(Exec(o, c));
  }

  /** What is stored at any time: a round that was valid and recent when it was stored. */
  predicate Stored(o: State) {
    var round := o.lastSetRound;
    && round.answer >= 0 && round.roundId == round.answeredInRound != 0
    && 0 < round.updatedAt <= o.priceTimestamp <= round.updatedAt + MAX_CL_WINDOW
  }

  lemma {:induction false} ReachableStored(o: State, calls: seq<Call>)
    requires Stored(o)
    ensures Stored(Run(o, calls))
    decreases |calls|
  {
    if calls != [] {
      ReachableStored(Exec(o, calls[0]), calls[1..]);
    }
  }

  lemma DeployedStored(initialPrice: Int256, decimals: nat, feed: Round, now: nat, admin: Address, setter: Address)
    requires Init(initialPrice, decimals, feed, now, admin, setter).Ok?
    ensures Stored(Init(initialPrice, decimals, feed, now, admin, setter).value)
  {
  }

  /** In any run from a positive price, whatever the feed answers, a price T seconds
      after the stored one lies within floor(T / 23h) compounded steps of 2.01%. */
  lemma {:induction false} ComparisonEnvelope(o: State, calls: seq<Call>, end: nat)
    requires o.rwaPrice > 0 && o.lastSetRound.answer >= 0 && o.priceTimestamp <= end
    requires forall i :: 0 <= i < |calls| ==> calls[i].now <= end
    ensures Run(o, calls).rwaPrice > 0
    ensures WithinEnvelope(BAND, o.rwaPrice, Run(o, calls).rwaPrice, (end - o.priceTimestamp) / 82_800)
    decreases |calls|
  {
    if calls == [] {
      EnvelopeAtRest(BAND, o.rwaPrice, (end - o.priceTimestamp) / MIN_PRICE_UPDATE_WINDOW);
    } else {
      var c := calls[0];
      var o' := Exec(o, c);
      OneCall(o, c);
      ComparisonEnvelope(o', calls[1..], end);
      if o' != o {
        EnvelopeThroughMove(BAND, o.rwaPrice, o.priceTimestamp, o'.rwaPrice, o'.priceTimestamp,
                            Run(o, calls).rwaPrice, end, MIN_PRICE_UPDATE_WINDOW);
      }
    }
  }

  lemma OneCall(o: State, c: Call)
    requires o.rwaPrice > 0 && o.lastSetRound.answer >= 0
    ensures Exec(o, c) != o ==>
              && Exec(o, c).priceTimestamp == c.now >= o.priceTimestamp + MIN_PRICE_UPDATE_WINDOW
              && Exec(o, c).rwaPrice > 0 && Exec(o, c).lastSetRound.answer >= 0
              && MoveWithin(BAND, o.rwaPrice, Exec(o, c).rwaPrice)
  {
    AcceptsIff(o, c.hasRole, c.newPrice, c.feed, c.now);
    if SetPrice(o, c.hasRole, c.newPrice, c.feed, c.now).Ok? {
      AcceptedStepBound(o, c.newPrice, c.feed, c.now);
    }
  }

  // ------------------------------------------------------------- the oracle never locks itself

  /** The threshold at which a feed move is set aside is the exact one: up to it some
      move of the price satisfies both constraints, and beyond it none does. */
  lemma IgnoreThresholdIsExact(c: int)
    ensures (exists r: int :: Abs(r) <= MAX_ABSOLUTE_DIFF_BPS && Abs(r - c) <= MAX_CHANGE_DIFF_BPS)
            <==> Abs(c) <= MAX_ABSOLUTE_DIFF_BPS + MAX_CHANGE_DIFF_BPS
  {
    var r := ClosestMove(c);
    assert Abs(c) <= 274 ==> Abs(r) <= MAX_ABSOLUTE_DIFF_BPS && Abs(r - c) <= MAX_CHANGE_DIFF_BPS;
  }

  function ClosestMove(c: int): int {
    if c > 200 then 200 else if c < -200 then -200 else c
  }

  /** `newPrice` meets both constraints when the feed moved by c basis points. */
  ghost predicate Admits(R: Int256, newPrice: Int256, c: int)
    requires R > 0
  {
    newPrice > 0 && FitsBps(R, newPrice) && MovesAllowed(ChangeBps(R, newPrice), c)
  }

  ghost predicate AdmitsSome(R: Int256, c: int)
    requires R > 0
  {
    exists newPrice: Int256 :: Admits(R, newPrice, c)
  }

  /** Some whole number of price units is a move of 200 basis points, up to truncation.
      (At 50 units the only other moves in reach are 0 and -200.) */
  predicate FineEnough(R: nat) {
    R != 50 && CeilDiv(R, 50) * 10_000 < 201 * R
  }

  /** Every price above 9800 units is fine enough. */
  lemma LargeIsFine(R: nat)
    requires R > 9_800
    ensures FineEnough(R)
  {
    assert (CeilDiv(R, 50) - 1) * 50 < R;
  }

  /** A move of the price, in its own units, that answers a feed move of c. */
  function AnsweringMove(R: nat, c: int): int {
    var units := if Abs(c) <= 74 || Abs(c) > 274 then 0
                 else if Abs(c) <= 125 then CeilDiv(51 * R, 10_000)
                 else CeilDiv(R, 50);
    if c >= 0 then units else 0 - units
  }

  lemma MoveBetween(R: nat, d: nat, lo: nat, hi: nat)
    requires R > 0 && lo * R <= 10_000 * d < (hi + 1) * R
    ensures lo <= Trunc(d * BPS_DENOMINATOR, R) <= hi
    ensures Trunc((0 - d) * BPS_DENOMINATOR, R) == 0 - Trunc(d * BPS_DENOMINATOR, R)
  {
    var q := d * 10_000 / R;
    FloorSpec(d * 10_000, R);
    if q < lo {
      MulMono(q + 1, lo, R);
    } else if q > hi {
      MulMono(hi + 1, q, R);
    }
  }

  /** Below 102 units only 100 is fine enough. */
  lemma FineValues(R: nat)
    requires R > 0 && FineEnough(R)
    ensures R == 100 || R >= 102
  {
    var u := CeilDiv(R, 50);
    assert (u - 1) * 50 < R <= u * 50;
  }

  lemma MiddleAnswer(R: nat)
    requires R == 100 || R >= 102
    ensures 51 * R <= 10_000 * CeilDiv(51 * R, 10_000) < 150 * R
  {
    var u := CeilDiv(51 * R, 10_000);
    assert (u - 1) * 10_000 < 51 * R <= u * 10_000;
  }

  lemma LargeAnswer(R: nat)
    requires R > 0 && FineEnough(R)
    ensures 200 * R <= 10_000 * CeilDiv(R, 50) < 201 * R
  {
    assert R <= CeilDiv(R, 50) * 50;
  }

  /** Moves below 201 basis points stay positive and overflow nothing. */
  lemma MoveFits(R: Int256, d: nat)
    requires 0 < R && 201 * R < TWO_255 && 10_000 * d < 201 * R
    ensures 0 < R - d <= R + d < TWO_255 && FitsBps(R, R + d) && FitsBps(R, R - d)
  {
  }

  /** A move of lo to hi basis points, up or down, and what it answers. */
  lemma MoveIsAdmitted(R: Int256, d: nat, lo: nat, hi: nat, c: int)
    requires 0 < R && 201 * R < TWO_255 && lo * R <= 10_000 * d < (hi + 1) * R && 10_000 * d < 201 * R && hi <= 200
    requires Abs(c) > 274 || (hi - 74 <= Abs(c) <= lo + 74)
    ensures 0 < R - d <= R + d < TWO_255
    ensures Admits(R, if c >= 0 then R + d else R - d, c)
  {
    MoveFits(R, d);
    MoveBetween(R, d, lo, hi);
    var n: Int256 := if c >= 0 then R + d else R - d;
    assert ChangeBps(R, n) == if c >= 0 then Trunc(d * BPS_DENOMINATOR, R) else Trunc((0 - d) * BPS_DENOMINATOR, R);
    assert MovesAllowed(ChangeBps(R, n), c);
  }

  lemma AnswerIsAdmitted(R: Int256, c: int)
    requires 0 < R && 201 * R < TWO_255 && FineEnough(R)
    ensures 0 < R + AnsweringMove(R, c) < TWO_255
    ensures Admits(R, R + AnsweringMove(R, c), c)
  {
    if Abs(c) <= 74 || Abs(c) > 274 {
      MoveIsAdmitted(R, 0, 0, 0, c);
    } else if Abs(c) <= 125 {
      FineValues(R);
      MiddleAnswer(R);
      MoveIsAdmitted(R, CeilDiv(51 * R, 10_000), 51, 149, c);
    } else {
      LargeAnswer(R);
      MoveIsAdmitted(R, CeilDiv(R, 50), 200, 200, c);
    }
  }

  /** A feed move of 274 can be answered only by a price move of 200. */
  lemma LargestMoveNeeds200(R: Int256, newPrice: Int256)
    requires 0 < R && Admits(R, newPrice, 274)
    ensures CeilDiv(R, 50) * 10_000 < 201 * R
  {
    var d := newPrice - R;
    assert ChangeBps(R, newPrice) == 200;
    TruncatedPart(d * BPS_DENOMINATOR, R);
    assert 200 * R <= d * 10_000 < 201 * R;
    CeilAtMost(R, 50, d);
  }

  /** At 50 units every move is a multiple of 200, which is too far from 100. */
  lemma FiftyIsTooCoarse(newPrice: Int256)
    ensures !Admits(50, newPrice, 100)
  {
    TruncatedPart((newPrice - 50) * BPS_DENOMINATOR, 50);
  }

  /** The oracle can follow every move of the feed exactly when its price is fine
      enough: otherwise some move admits no price at all. */
  lemma AdmitsEveryMoveIff(R: Int256)
    requires 0 < R && 201 * R < TWO_255
    ensures (forall c: int :: AdmitsSome(R, c)) <==> FineEnough(R)
  {
    if FineEnough(R) {
      forall c: int ensures AdmitsSome(R, c) {
        AnswerIsAdmitted(R, c);
      }
    } else if forall c: int :: AdmitsSome(R, c) {
      assert AdmitsSome(R, 274) && AdmitsSome(R, 100);
      var n: Int256 :| Admits(R, n, 274);
      LargestMoveNeeds200(R, n);
      var m: Int256 :| Admits(R, m, 100);
      FiftyIsTooCoarse(m);
    }
  }

  /** From such a price, a setter with a fresh round after the window always has an
      acceptable next price, however the feed moved. */
  lemma AlwaysAdmitsAPrice(o: State, feed: Round, now: nat) returns (newPrice: Int256)
    requires 0 < o.rwaPrice && 201 * o.rwaPrice < TWO_255 && FineEnough(o.rwaPrice)
    requires o.lastSetRound.answer > 0
    requires FeedAllows(o, feed, now)
    requires o.priceTimestamp + MIN_PRICE_UPDATE_WINDOW <= now
    requires o.priceTimestamp + MIN_PRICE_UPDATE_WINDOW <= MAX_UINT256
    requires FitsBps(o.lastSetRound.answer, feed.answer)
    ensures SetPrice(o, true, newPrice, feed, now).Ok?
  {
    var c := ChangeBps(o.lastSetRound.answer, feed.answer);
    AnswerIsAdmitted(o.rwaPrice, c);
    newPrice := o.rwaPrice + AnsweringMove(o.rwaPrice, c);
    AcceptsIff(o, true, newPrice, feed, now);
  }

  /** A deployment at a price of 1 with the feed at 10000: every move of the price is a
      multiple of 100%, so when the feed has moved by 1% a fresh round after the window
      admits no price at all. */
  lemma CoarsePriceLocks(deployed: nat, newPrice: Int256, now: nat, admin: Address, setter: Address)
    requires deployed > 0 && admin != ZERO_ADDRESS && setter != ZERO_ADDRESS
    requires deployed + MIN_PRICE_UPDATE_WINDOW <= now && now + MAX_CL_WINDOW <= MAX_UINT256
    ensures var o := State(1, deployed, Round(1, 10_000, 0, deployed, 1));
            var feed := Round(2, 10_100, 0, now, 2);
            && Init(1, 8, o.lastSetRound, deployed, admin, setter) == Ok(o)
            && FeedAllows(o, feed, now)
            && SetPrice(o, true, newPrice, feed, now).Revert?
  {
    var o := State(1, deployed, Round(1, 10_000, 0, deployed, 1));
    AcceptsIff(o, true, newPrice, Round(2, 10_100, 0, now, 2), now);
    assert ChangeBps(10_000, 10_100) == 100;
    assert ChangeBps(1, newPrice) == (newPrice - 1) * 10_000;
  }

  // ------------------------------------------------------------- where the documentation holds

  /** Two updates that pass although the documentation rules them out: a move of 200.99
      basis points, and one that is 75.98 basis points away from the feed's. */
  lemma DocumentedBoundsFail(deployed: nat, now: nat, admin: Address, setter: Address)
    requires deployed > 0 && admin != ZERO_ADDRESS && setter != ZERO_ADDRESS
    requires deployed + MIN_PRICE_UPDATE_WINDOW <= now && now + MAX_CL_WINDOW <= MAX_UINT256
    ensures var o := State(1_000_000, deployed, Round(1, 1_000_000, 0, deployed, 1));
            && Init(1_000_000, 8, o.lastSetRound, deployed, admin, setter) == Ok(o)
            && SetPrice(o, true, 1_020_099, Round(2, 1_020_000, 0, now, 2), now).Ok?
            && 10_000 * Abs(1_020_099 - 1_000_000) > 200 * 1_000_000
            && SetPrice(o, true, 1_007_499, Round(2, 999_901, 0, now, 2), now).Ok?
            && BandBroken(1_000_000, 1_007_499, 1_000_000, 999_901)
  {
    var o := State(1_000_000, deployed, Round(1, 1_000_000, 0, deployed, 1));
    AcceptsIff(o, true, 1_020_099, Round(2, 1_020_000, 0, now, 2), now);
    AcceptsIff(o, true, 1_007_499, Round(2, 999_901, 0, now, 2), now);
  }

  /** The relative moves from R and from C are more than 74 basis points apart. */
  predicate BandBroken(R: int, newPrice: int, C: int, answer: int) {
    10_000 * Abs((newPrice - R) * C - (answer - C) * R) > 74 * (R * C)
  }

  /** The limit documented on a single change fails at a price exactly when whole price
      units reach 200 basis points before 201. */
  lemma LimitReachedIff(R: Int256)
    requires 0 < R && 201 * R < TWO_255
    ensures (exists newPrice: Int256, c: int :: Admits(R, newPrice, c) && 10_000 * Abs(newPrice - R) >= 200 * R)
            <==> CeilDiv(R, 50) * 10_000 < 201 * R
  {
    if CeilDiv(R, 50) * 10_000 < 201 * R {
      var d := CeilDiv(R, 50);
      MoveBetween(R, d, 200, 200);
      assert Admits(R, R + d, 200);
    } else if exists n: Int256, c: int :: Admits(R, n, c) && 10_000 * Abs(n - R) >= 200 * R {
      var n: Int256, c: int :| Admits(R, n, c) && 10_000 * Abs(n - R) >= 200 * R;
      AdmittedStaysBelow201(R, n, c);
      CeilAtMost(R, 50, Abs(n - R));
    }
  }

  lemma AdmittedStaysBelow201(R: Int256, newPrice: Int256, c: int)
    requires R > 0 && Admits(R, newPrice, c)
    ensures 10_000 * Abs(newPrice - R) < 201 * R
  {
    var dR, r := newPrice - R, ChangeBps(R, newPrice);
    TruncatedPart(10_000 * dR, R);
    AbsoluteBound(dR, R, r, 10_000 * dR - r * R);
  }

  /** Which accepted updates keep the documented band: all whose truncated changes are at
      most 72 apart, and at 73 and 74 those whose truncated-away parts (over the common
      denominator R*C) do not reach further out. */
  lemma BandKeptIff(R: Int256, newPrice: Int256, C: Int256, answer: Int256)
    requires R > 0 && C > 0
    requires Abs(ChangeBps(R, newPrice) - ChangeBps(C, answer)) <= MAX_CHANGE_DIFF_BPS
    ensures var r, c := ChangeBps(R, newPrice), ChangeBps(C, answer);
            var rest := (10_000 * (newPrice - R) - r * R) * C - (10_000 * (answer - C) - c * C) * R;
            var outward := if r >= c then rest else 0 - rest;
            !BandBroken(R, newPrice, C, answer)
            <==> Abs(r - c) <= 72 || (Abs(r - c) == 73 && outward <= R * C) || (Abs(r - c) == 74 && outward <= 0)
  {
    var r, c := ChangeBps(R, newPrice), ChangeBps(C, answer);
    TruncatedPart(10_000 * (newPrice - R), R);
    TruncatedPart(10_000 * (answer - C), C);
    PartsDecide(newPrice - R, R, r, 10_000 * (newPrice - R) - r * R, answer - C, C, c, 10_000 * (answer - C) - c * C);
  }

  lemma PartsDecide(dR: int, R: int, r: int, e: int, dC: int, C: int, c: int, f: int)
    requires R > 0 && C > 0 && -R < e < R && -C < f < C && Abs(r - c) <= 74
    requires e == 10_000 * dR - r * R && f == 10_000 * dC - c * C
    ensures var outward := if r >= c then e * C - f * R else 0 - (e * C - f * R);
            10_000 * Abs(dR * C - dC * R) <= 74 * (R * C)
            <==> Abs(r - c) <= 72 || (Abs(r - c) == 73 && outward <= R * C) || (Abs(r - c) == 74 && outward <= 0)
  {
    CrossMove(dR, R, r, dC, C, c);
    ScaledPart(e, R, C);
    ScaledPart(f, C, R);
    OutwardPart(10_000 * (dR * C - dC * R), r - c, e * C - f * R, R * C);
  }

  lemma OutwardPart(cross: int, k: int, rest: int, unit: int)
    requires cross == k * unit + rest && Abs(k) <= 74 && -2 * unit < rest < 2 * unit
    ensures var outward := if k >= 0 then rest else 0 - rest;
            Abs(cross) <= 74 * unit
            <==> Abs(k) <= 72 || (Abs(k) == 73 && outward <= unit) || (Abs(k) == 74 && outward <= 0)
  {
    var m := Abs(k);
    assert k * unit == if k >= 0 then m * unit else 0 - m * unit;
    if m <= 72 {
      MulMono(0, m, unit);
      MulMono(m, 72, unit);
    }
  }

  /** An accepted update, from price R and answer C, that breaks the band although the
      feed's move was not set aside. */
  ghost predicate BreaksBand(R: Int256, C: Int256, newPrice: Int256, answer: Int256)
    requires R > 0 && C > 0
  {
    && newPrice > 0 && answer >= 0 && FitsBps(R, newPrice) && FitsBps(C, answer)
    && Abs(ChangeBps(C, answer)) <= MAX_ABSOLUTE_DIFF_BPS + MAX_CHANGE_DIFF_BPS
    && MovesAllowed(ChangeBps(R, newPrice), ChangeBps(C, answer))
    && BandBroken(R, newPrice, C, answer)
  }

  ghost predicate BandBreakable(R: Int256, C: Int256)
    requires R > 0 && C > 0
  {
    exists newPrice: Int256, answer: Int256 :: BreaksBand(R, C, newPrice, answer)
  }

  /** Some whole number of units, short of `limit` basis points, is a fraction of one. */
  predicate HasFraction(P: nat, limit: nat)
    requires P > 0
  {
    10_000 < limit * P && 10_000 % P != 0
  }

  /** At stored values of practical size (more than 10000 units on either side) the band
      can be broken; at 10000 units exactly on one side, whenever the other side's steps
      are fractions of a basis point. */
  lemma BandBreakableIff(R: Int256, C: Int256)
    requires R > 0 && C > 0 && 201 * R < TWO_255 && 275 * C < TWO_255
    requires R >= 10_000 || C >= 10_000
    ensures BandBreakable(R, C) <==>
            R > 10_000 || C > 10_000 || (if C == 10_000 then HasFraction(R, 201) else HasFraction(C, 275))
  {
    if C > 10_000 {
      StillPriceBreaks(R, C);
    } else if R > 10_000 {
      StillFeedBreaks(R, C);
    } else if C == 10_000 && HasFraction(R, 201) {
      OneUnitOfPriceBreaks(R);
    } else if C < 10_000 && HasFraction(C, 275) {
      OneUnitOfFeedBreaks(C);
    } else if BandBreakable(R, C) {
      var newPrice: Int256, answer: Int256 :| BreaksBand(R, C, newPrice, answer);
      if C == 10_000 {
        ExactFeedKeeps(R, newPrice, answer);
      } else {
        ExactPriceKeeps(C, newPrice, answer);
      }
    }
  }

  lemma ExactFeedKeeps(R: Int256, newPrice: Int256, answer: Int256)
    requires R > 0 && !HasFraction(R, 201)
    ensures !BreaksBand(R, 10_000, newPrice, answer)
  {
    if BreaksBand(R, 10_000, newPrice, answer) {
      var c := answer - 10_000;
      assert ChangeBps(10_000, answer) == c by { WholeQuotient(c * 10_000, c, 10_000); }
      AdmittedStaysBelow201(R, newPrice, c);
      NoFractionKeeps(R, newPrice - R, c, 201);
    }
  }

  lemma ExactPriceKeeps(C: Int256, newPrice: Int256, answer: Int256)
    requires C > 0 && !HasFraction(C, 275)
    ensures !BreaksBand(10_000, C, newPrice, answer)
  {
    if BreaksBand(10_000, C, newPrice, answer) {
      var r, dC := newPrice - 10_000, answer - C;
      assert ChangeBps(10_000, newPrice) == r by { WholeQuotient(r * 10_000, r, 10_000); }
      var c := ChangeBps(C, answer);
      TruncatedPart(10_000 * dC, C);
      MulMono(c, 274, C);
      MulMono(-274, c, C);
      NoFractionKeeps(C, dC, r, 275);
    }
  }

  lemma StillPriceBreaks(R: Int256, C: Int256)
    requires R > 0 && C > 10_000 && 275 * C < TWO_255
    ensures BandBreakable(R, C)
  {
    var e := 74 * C / 10_000 + 1;
    FloorSpec(74 * C, 10_000);
    MoveBetween(C, e, 74, 74);
    MoveBetween(R, 0, 0, 0);
    MulMono(74 * C + 1, 10_000 * e, R);
    assert BreaksBand(R, C, R, C + e);
  }

  lemma StillFeedBreaks(R: Int256, C: Int256)
    requires R > 10_000 && C > 0 && 201 * R < TWO_255
    ensures BandBreakable(R, C)
  {
    var d := 74 * R / 10_000 + 1;
    FloorSpec(74 * R, 10_000);
    MoveBetween(R, d, 74, 74);
    MoveBetween(C, 0, 0, 0);
    MulMono(74 * R + 1, 10_000 * d, C);
    assert BreaksBand(R, C, R + d, C);
  }

  lemma OneUnitOfPriceBreaks(R: Int256)
    requires 0 < R <= 10_000 && HasFraction(R, 201)
    ensures BandBreakable(R, 10_000)
  {
    var q := 10_000 / R;
    FloorSpec(10_000, R);
    assert q <= 200 by { if q > 200 { MulMono(201, q, R); } }
    MoveBetween(R, 1, q, q);
    assert ChangeBps(10_000, 10_000 + q - 74) == q - 74;
    assert BreaksBand(R, 10_000, R + 1, 10_000 + q - 74);
  }

  lemma OneUnitOfFeedBreaks(C: Int256)
    requires 0 < C < 10_000 && HasFraction(C, 275)
    ensures BandBreakable(10_000, C)
  {
    var q := 10_000 / C;
    FloorSpec(10_000, C);
    assert q <= 274 by { if q > 274 { MulMono(275, q, C); } }
    MoveBetween(C, 1, q, q);
    assert ChangeBps(10_000, 10_000 + q - 74) == q - 74;
    assert BreaksBand(10_000, C, 10_000 + q - 74, C + 1);
  }

  /** Where steps are whole basis points, or out of reach, truncation changes nothing. */
  lemma NoFractionKeeps(P: nat, x: int, k: int, limit: nat)
    requires P > 0 && !HasFraction(P, limit)
    requires 10_000 * Abs(x) < limit * P && Abs(Trunc(x * BPS_DENOMINATOR, P) - k) <= 74
    ensures 10_000 * Abs(10_000 * x - k * P) <= 74 * (P * 10_000)
  {
    ExactChange(P, x, limit);
    WithinBand(Trunc(x * BPS_DENOMINATOR, P), k, P);
  }

  lemma ExactChange(P: nat, x: int, limit: nat)
    requires P > 0 && !HasFraction(P, limit) && 10_000 * Abs(x) < limit * P
    ensures Trunc(x * BPS_DENOMINATOR, P) * P == 10_000 * x
  {
    if x == 0 {
      WholeQuotient(0, 0, P);
    } else {
      var q := 10_000 / P;
      FloorSpec(10_000, P);
      Regrouped(x, q, P);
      WholeQuotient(x * BPS_DENOMINATOR, x * q, P);
    }
  }

  lemma Regrouped(x: int, q: int, P: int)
    ensures x * q * P == x * (q * P)
  {
  }

  lemma WithinBand(t: int, k: int, P: nat)
    requires Abs(t - k) <= 74
    ensures Abs(t * P - k * P) <= 74 * P
  {
    assert t * P - k * P == (t - k) * P;
    MulMono(t - k, 74, P);
    MulMono(-74, t - k, P);
  }

  lemma WholeQuotient(a: int, q: int, P: nat)
    requires P > 0 && a == q * P
    ensures Trunc(a, P) == q
  {
    if q >= 0 {
      MulMono(0, q, P);
      FloorUnique(a, P, q);
    } else {
      MulMono(q, -1, P);
      assert (-q) * P == -a;
      FloorUnique(-a, P, -q);
    }
  }
}

/** The oracle as the contract it is. */
module ComparisonOracleContract {
  import opened Outcomes
  import Spec = ComparisonOracle

  class RWAOracleExternalComparisonCheck {
    var rwaPrice: Int256
    var priceTimestamp: nat
    var lastSetRound: Spec.Round

    function Snapshot(): Spec.State
      reads this
    {
      Spec.State(rwaPrice, priceTimestamp, lastSetRound)
    }

    /** A reverting deployment is a constructor that cannot be called. */
    constructor (initialPrice: Int256, feed: Spec.Round, now: nat, admin: Address, setter: Address)
      requires Spec.Init(initialPrice, 8, feed, now, admin, setter).Ok?
      ensures Spec.Init(initialPrice, 8, feed, now, admin, setter) == Ok(Snapshot())
    {
      rwaPrice := initialPrice;
      priceTimestamp := now;
      lastSetRound := feed;
    }

    method SetPrice(hasRole: bool, newPrice: Int256, feed: Spec.Round, now: nat) returns (r: Result<()>)
      modifies this
      ensures match Spec.SetPrice(old(Snapshot()), hasRole, newPrice, feed, now)
              case Ok(o) => r.Ok? && Snapshot() == o
              case Revert(e) => r == Revert(e) && Snapshot() == old(Snapshot())
    {
      if !hasRole {
        return Revert(MissingRole);
      }
      if newPrice <= 0 {
        return Revert(InvalidRWAPrice);
      }
      var round :- Spec.LatestRound(feed, now);
      var deadline :- CheckedAdd(round.updatedAt, Spec.MAX_CL_WINDOW);
      if now > deadline {
        return Revert(ChainlinkOraclePriceStale);
      }
      if round.roundId == lastSetRound.roundId {
        return Revert(ChainlinkRoundNotUpdated);
      }
      var opens :- CheckedAdd(priceTimestamp, Spec.MIN_PRICE_UPDATE_WINDOW);
      if now < opens {
        return Revert(PriceUpdateWindowViolation);
      }
      var rwaPriceChangeBps :- Spec.PriceChangeBps(rwaPrice, newPrice);
      var rwaMove :- Spec.AbsUnsigned(rwaPriceChangeBps);
      if rwaMove > Spec.MAX_ABSOLUTE_DIFF_BPS {
        return Revert(AbsoluteDifferenceConstraintViolated);
      }
      var chainlinkPriceChangeBps :- Spec.PriceChangeBps(lastSetRound.answer, round.answer);
      var chainlinkMove :- Spec.AbsUnsigned(chainlinkPriceChangeBps);
      if chainlinkMove <= Spec.MAX_ABSOLUTE_DIFF_BPS + Spec.MAX_CHANGE_DIFF_BPS {
        var changeDifferenceBps := Spec.Abs(rwaPriceChangeBps - chainlinkPriceChangeBps);
        if changeDifferenceBps > Spec.MAX_CHANGE_DIFF_BPS {
          return Revert(DeltaDifferenceConstraintViolation);
        }
      }
      rwaPrice := newPrice;
      priceTimestamp := now;
      lastSetRound := round;
      return Ok(());
    }
  }
}
