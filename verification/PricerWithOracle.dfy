/** PricerWithOracle composed with the oracle it feeds. The oracle can also be set
    directly by other holders of its setter role, so the two form one system. */
module PricerWithOracle {
  import opened Outcomes
  import opened Pricer
  import Rate = RateOracle
  import Comparison = ComparisonOracle

  datatype Oracle =
    | RateChecked(rate: Rate.ValidState)
    | Compared(comparison: Comparison.State)

  /** What a call sees besides its arguments. */
  datatype Env = Env(now: nat, feed: Comparison.Round, pricerIsSetter: bool)

  /** getPriceData: the signed price is reinterpreted as unsigned. */
  function PriceData(oracle: Oracle): PriceInfo {
    match oracle
    case RateChecked(rate) => PriceInfo(ToUint(rate.rwaPrice), rate.priceTimestamp)
    case Compared(comparison) => PriceInfo(ToUint(comparison.rwaPrice), comparison.priceTimestamp)
  }

  function SetOracle(oracle: Oracle, env: Env, hasRole: bool, price: Int256): Result<Oracle> {
    match oracle
    case RateChecked(rate) =>
      var rate' :- Rate.SetPrice(rate, hasRole, price, env.now);
      Ok(RateChecked(rate'))
    case Compared(comparison) =>
      var comparison' :- Comparison.SetPrice(comparison, hasRole, price, env.feed, env.now);
      Ok(Compared(comparison'))
  }

  datatype System = System(pricer: State, oracle: Oracle)

  /** The constructor copies the oracle's price under id 1. */
  function Init(oracle: Oracle): System {
    System(State(map[1 := PriceData(oracle)], [1], 1, 1), oracle)
  }

  /** _updateOraclePrice. */
  function UpdateOraclePrice(sys: System, env: Env, price: Uint256, latestPriceId: nat): Result<Oracle> {
    var _ :- Need(Info(sys.pricer, latestPriceId).price == PriceData(sys.oracle).price, LatestPriceMismatch);
    SetOracle(sys.oracle, env, env.pricerIsSetter, ToInt(price))
  }

  function AddPrice(sys: System, env: Env, hasRole: bool, price: Uint256, timestamp: nat): Result<System> {
    var _ :- Need(hasRole, MissingRole);
    var _ :- Need(price != 0, InvalidPrice);
    var appended :- Append(sys.pricer, PriceInfo(price, timestamp));
    if timestamp > LatestInfo(appended).timestamp then
      var oracle :- UpdateOraclePrice(System(appended, sys.oracle), env, price, appended.latestPriceId);
      Ok(System(appended.(latestPriceId := appended.currentPriceId), oracle))
    else
      Ok(System(appended, sys.oracle))
  }

  function AddLatestOraclePrice(sys: System, hasRole: bool): Result<System> {
    var _ :- Need(hasRole, MissingRole);
    var _ :- Need(LatestInfo(sys.pricer) != PriceData(sys.oracle), PricesAlreadyMatch);
    var appended :- Append(sys.pricer, PriceData(sys.oracle));
    Ok(System(appended.(latestPriceId := appended.currentPriceId), sys.oracle))
  }

  datatype Op =
    | AddPriceOp(hasRole: bool, price: Uint256, timestamp: nat)
    | UpdatePriceOp(hasRole: bool, priceId: nat, price: Uint256)
    | AddLatestOraclePriceOp(hasRole: bool)
    | SetOracleOp(hasRole: bool, newPrice: Int256)

  function Step(sys: System, env: Env, op: Op): Result<System> {
    match op
    case AddPriceOp(role, price, timestamp) => AddPrice(sys, env, role, price, timestamp)
    case UpdatePriceOp(role, priceId, price) =>
      var pricer :- UpdatePrice(sys.pricer, role, priceId, price);
      Ok(System(pricer, sys.oracle))
    case AddLatestOraclePriceOp(role) => AddLatestOraclePrice(sys, role)
    case SetOracleOp(role, newPrice) =>
      var oracle :- SetOracle(sys.oracle, env, role, newPrice);
      Ok(System(sys.pricer, oracle))
  }

  datatype Call = Call(env: Env, op: Op)

  function Exec(sys: System, c: Call): System {
    var r := Step(sys, c.env, c.op);
    if r.Ok? then r.value else sys
  }

  function Run(sys: System, calls: seq<Call>): System
    decreases |calls|
  {
    if calls == [] then sys else Run(Exec(sys, calls[0]), calls[1..])
  }

  // ------------------------------------------------------------- the ordering behind the skipped check

  /** The relation a comment in addLatestOraclePrice relies on. */
  predicate Ordered(sys: System) {
    LatestInfo(sys.pricer).timestamp <= PriceData(sys.oracle).timestamp
  }

  /** With a live pointer whose timestamp is the largest of all. */
  ghost predicate Inv(sys: System) {
    && IdsInOrder(sys.pricer)
    && sys.pricer.latestPriceId in sys.pricer.prices
    && IsMaxTimestamp(sys.pricer, LatestInfo(sys.pricer).timestamp)
    && Ordered(sys)
  }

  /** An addPrice that would move the pointer to a time that has not come yet. */
  predicate Premature(sys: System, c: Call) {
    c.op.AddPriceOp? && c.op.timestamp > LatestInfo(sys.pricer).timestamp && c.op.timestamp > c.env.now
  }

  lemma OracleTimestamp(oracle: Oracle, env: Env, hasRole: bool, price: Int256)
    requires SetOracle(oracle, env, hasRole, price).Ok?
    ensures PriceData(SetOracle(oracle, env, hasRole, price).value) == PriceInfo(ToUint(price), env.now)
    ensures PriceData(oracle).timestamp <= env.now
    ensures price > 0
  {
  }

  /** From an ordered state, an accepted call keeps the order exactly when it is not
      premature; the largest timestamp stays under the pointer either way. */
  lemma OrderKeptIff(sys: System, c: Call)
    requires Inv(sys) && Step(sys, c.env, c.op).Ok?
    ensures Inv(Exec(sys, c)) <==> !Premature(sys, c)
    ensures Ordered(Exec(sys, c)) <==> !Premature(sys, c)
    ensures IsMaxTimestamp(Exec(sys, c).pricer, LatestInfo(Exec(sys, c).pricer).timestamp)
  {
    var sys' := Exec(sys, c);
    match c.op
    case AddPriceOp(_, price, timestamp) =>
      AppendKeepsIds(sys.pricer, PriceInfo(price, timestamp));
      if sys'.oracle != sys.oracle {
        OracleTimestamp(sys.oracle, c.env, c.env.pricerIsSetter, ToInt(price));
      }
    case UpdatePriceOp(_, priceId, price) =>
    case AddLatestOraclePriceOp(_) =>
      AppendKeepsIds(sys.pricer, PriceData(sys.oracle));
    case SetOracleOp(role, newPrice) =>
      OracleTimestamp(sys.oracle, c.env, role, newPrice);
  }

  ghost predicate AlwaysOrdered(sys: System, calls: seq<Call>)
    decreases |calls|
  {
    Ordered(sys) && (calls != [] ==> AlwaysOrdered(Exec(sys, calls[0]), calls[1..]))
  }

  ghost predicate NeverPremature(sys: System, calls: seq<Call>)
    decreases |calls|
  {
    calls != [] ==>
      && (Step(sys, calls[0].env, calls[0].op).Ok? ==> !Premature(sys, calls[0]))
      && NeverPremature(Exec(sys, calls[0]), calls[1..])
  }

  /** The comment holds in every state of a run exactly when the run accepts no
      premature addPrice; then the pointer also has the largest timestamp throughout. */
  lemma {:induction false} CommentHoldsIff(sys: System, calls: seq<Call>)
    requires Inv(sys)
    ensures AlwaysOrdered(sys, calls) <==> NeverPremature(sys, calls)
    ensures NeverPremature(sys, calls) ==> Inv(Run(sys, calls))
    decreases |calls|
  {
    if calls != [] {
      var sys' := Exec(sys, calls[0]);
      if Step(sys, calls[0].env, calls[0].op).Ok? {
        OrderKeptIff(sys, calls[0]);
      }
      if Inv(sys') {
        CommentHoldsIff(sys', calls[1..]);
      }
    }
  }

  lemma InitInv(oracle: Oracle)
    ensures Inv(Init(oracle))
  {
    assert Init(oracle).pricer.priceIds == seq(1, i => i + 1);
  }

  /** When every addPrice is stamped no later than its block, in every state a run
      reaches the pointer has the largest timestamp and is not ahead of the oracle. */
  lemma {:induction false} StampedInTheirBlock(sys: System, calls: seq<Call>)
    requires Inv(sys)
    requires forall i | 0 <= i < |calls| :: calls[i].op.AddPriceOp? ==> calls[i].op.timestamp <= calls[i].env.now
    ensures Inv(Run(sys, calls)) && AlwaysOrdered(sys, calls)
    decreases |calls|
  {
    if calls != [] {
      if Step(sys, calls[0].env, calls[0].op).Ok? {
        OrderKeptIff(sys, calls[0]);
      }
      StampedInTheirBlock(Exec(sys, calls[0]), calls[1..]);
    }
  }

  /** Without that, the comment is false: a price stamped an hour ahead passes the
      pointer, and the catch-up call then moves the pointer back in time. */
  lemma CommentCanFail(feed: Comparison.Round) returns (sys: System, calls: seq<Call>)
    ensures Inv(sys) && |calls| == 3
    ensures !Ordered(Run(sys, calls[..1]))
    ensures !IsMaxTimestamp(Run(sys, calls).pricer, LatestInfo(Run(sys, calls).pricer).timestamp)
  {
    sys := Init(RateChecked(Rate.State(1000, 0)));
    InitInv(sys.oracle);
    var day, next := Env(100_000, feed, true), Env(200_000, feed, true);
    calls := [Call(day, Op.AddPriceOp(true, 1000, 300_000)),
              Call(next, SetOracleOp(true, 1010)),
              Call(next, AddLatestOraclePriceOp(true))];
    Rate.AcceptsIff(sys.oracle.rate, true, 1000, 100_000);
    var s1 := Exec(sys, calls[0]);
    assert s1.oracle == RateChecked(Rate.State(1000, 100_000));
    Rate.AcceptsIff(s1.oracle.rate, true, 1010, 200_000);
    var s2 := Exec(s1, calls[1]);
    assert s2.oracle == RateChecked(Rate.State(1010, 200_000));
    var s3 := Exec(s2, calls[2]);
    assert s3.pricer.prices[2].timestamp == 300_000 && LatestInfo(s3.pricer).timestamp == 200_000;
    assert calls[1..] == [calls[1], calls[2]] && calls[1..][1..] == [calls[2]];
    assert Run(s2, [calls[2]]) == s3;
    assert Run(s1, calls[1..]) == s3;
    assert calls[..1] == [calls[0]];
    assert Run(sys, calls[..1]) == s1;
  }

  // ------------------------------------------------------------- which prices reach the oracle

  /** Ids are in order and the pointer is one of them: true of every reachable state,
      whatever the timestamps. */
  ghost predicate Linked(sys: System) {
    IdsInOrder(sys.pricer) && sys.pricer.latestPriceId in sys.pricer.prices
  }

  lemma StepKeepsLinked(sys: System, c: Call)
    requires Linked(sys)
    ensures Linked(Exec(sys, c))
  {
    if Step(sys, c.env, c.op).Ok? {
      match c.op
      case AddPriceOp(_, price, timestamp) => AppendKeepsIds(sys.pricer, PriceInfo(price, timestamp));
      case AddLatestOraclePriceOp(_) => AppendKeepsIds(sys.pricer, PriceData(sys.oracle));
      case UpdatePriceOp(_, _, _) =>
      case SetOracleOp(_, _) =>
    }
  }

  lemma ReachableLinked(oracle: Oracle, calls: seq<Call>)
    ensures Linked(Run(Init(oracle), calls))
  {
    InitInv(oracle);
    RunKeepsLinked(Init(oracle), calls);
  }

  lemma {:induction false} RunKeepsLinked(sys: System, calls: seq<Call>)
    requires Linked(sys)
    ensures Linked(Run(sys, calls))
    decreases |calls|
  {
    if calls != [] {
      StepKeepsLinked(sys, calls[0]);
      RunKeepsLinked(Exec(sys, calls[0]), calls[1..]);
    }
  }

  /** An oracle update always moves the oracle's clock forward, by a full window. */
  lemma OracleUpdateShows(oracle: Oracle, env: Env, hasRole: bool, price: Int256)
    requires SetOracle(oracle, env, hasRole, price).Ok?
    ensures SetOracle(oracle, env, hasRole, price).value != oracle
  {
    match oracle
    case RateChecked(rate) =>
    case Compared(comparison) =>
  }

  /** An accepted addPrice is sent to the oracle, and shows there, exactly when it is
      newer than the latest price; otherwise the oracle is left alone. */
  lemma SentToOracleIff(sys: System, env: Env, hasRole: bool, price: Uint256, timestamp: nat)
    requires Linked(sys) && AddPrice(sys, env, hasRole, price, timestamp).Ok?
    ensures var sys' := AddPrice(sys, env, hasRole, price, timestamp).value;
            && (sys'.oracle != sys.oracle <==> timestamp > LatestInfo(sys.pricer).timestamp)
            && (timestamp > LatestInfo(sys.pricer).timestamp ==>
                  && SetOracle(sys.oracle, env, env.pricerIsSetter, ToInt(price)) == Ok(sys'.oracle)
                  && PriceData(sys'.oracle) == PriceInfo(price, env.now))
  {
    AppendKeepsIds(sys.pricer, PriceInfo(price, timestamp));
    if timestamp > LatestInfo(sys.pricer).timestamp {
      OracleTimestamp(sys.oracle, env, env.pricerIsSetter, ToInt(price));
      OracleUpdateShows(sys.oracle, env, env.pricerIsSetter, ToInt(price));
    }
  }

  /** From any deployment, a price stamped no later than the oracle's is added and not
      sent, however far it is from the oracle's price. */
  lemma OldPriceIsNotSent(oracle: Oracle, env: Env, price: Uint256, timestamp: nat)
    requires price != 0 && timestamp <= PriceData(oracle).timestamp
    ensures var sys := Exec(Init(oracle), Call(env, Op.AddPriceOp(true, price, timestamp)));
            && Info(sys.pricer, 2) == PriceInfo(price, timestamp)
            && sys.oracle == oracle && sys.pricer.latestPriceId == 1
  {
    InitInv(oracle);
    AppendKeepsIds(Init(oracle).pricer, PriceInfo(price, timestamp));
  }

  // ------------------------------------------------------------- each call, in terms of its arguments

  /** A stored answer is never negative: see ComparisonOracle.ReachableStored. */
  predicate StorableOracle(oracle: Oracle) {
    oracle.Compared? ==> oracle.comparison.lastSetRound.answer >= 0
  }

  /** The oracle's own conditions on a new price. */
  ghost predicate OracleTakes(oracle: Oracle, env: Env, isSetter: bool, price: int) {
    match oracle
    case RateChecked(rate) =>
      && isSetter && 0 < price
      && rate.priceTimestamp + 82_800 <= env.now
      && 10_000 * Rate.Distance(price, rate.rwaPrice) < TWO_256
      && 10_000 * Rate.Distance(price, rate.rwaPrice) <= 100 * rate.rwaPrice
    case Compared(c) =>
      && isSetter && 0 < price
      && c.rwaPrice > 0 && c.lastSetRound.answer > 0
      && Comparison.FeedAllows(c, env.feed, env.now)
      && c.priceTimestamp + 82_800 <= env.now && c.priceTimestamp + 82_800 <= MAX_UINT256
      && Comparison.FitsBps(c.rwaPrice, price)
      && Comparison.FitsBps(c.lastSetRound.answer, env.feed.answer)
      && Comparison.MovesAllowed(Comparison.ChangeBps(c.rwaPrice, price),
                                 Comparison.ChangeBps(c.lastSetRound.answer, env.feed.answer))
  }

  /** The oracle after it took a price. */
  ghost predicate OracleHolds(oracle: Oracle, oracle': Oracle, env: Env, price: int) {
    match oracle
    case RateChecked(_) =>
      oracle'.RateChecked? && oracle'.rate.rwaPrice == price && oracle'.rate.priceTimestamp == env.now
    case Compared(_) =>
      && oracle'.Compared? && oracle'.comparison.rwaPrice == price && oracle'.comparison.priceTimestamp == env.now
      && oracle'.comparison.lastSetRound == env.feed
  }

  lemma SetOracleExactly(oracle: Oracle, env: Env, isSetter: bool, price: Int256)
    requires StorableOracle(oracle)
    ensures SetOracle(oracle, env, isSetter, price).Ok? <==> OracleTakes(oracle, env, isSetter, price)
    ensures SetOracle(oracle, env, isSetter, price).Ok? ==>
              OracleHolds(oracle, SetOracle(oracle, env, isSetter, price).value, env, price)
  {
    match oracle
    case RateChecked(rate) => Rate.AcceptsIff(rate, isSetter, price, env.now);
    case Compared(c) => Comparison.AcceptsIff(c, isSetter, price, env.feed, env.now);
  }

  /** The oracle's price and time as getPriceData reports them; a negative price (which
      only a deployment can set) reads as a huge one. */
  lemma PriceDataExactly(oracle: Oracle)
    ensures oracle.RateChecked? ==> PriceData(oracle) == PriceInfo(oracle.rate.rwaPrice, oracle.rate.priceTimestamp)
    ensures oracle.Compared? ==>
              var c := oracle.comparison;
              PriceData(oracle).timestamp == c.priceTimestamp
              && PriceData(oracle).price == if c.rwaPrice < 0 then c.rwaPrice + TWO_256 else c.rwaPrice as int
  {
  }

  /** Deployment copies the oracle's price and time under id 1, and nothing else. */
  lemma InitExactly(oracle: Oracle)
    ensures var sys := Init(oracle);
            && sys.oracle == oracle && sys.pricer.currentPriceId == sys.pricer.latestPriceId == 1
            && sys.pricer.priceIds == [1]
            && forall k: nat :: Info(sys.pricer, k) == if k == 1 then PriceData(oracle) else PriceInfo(0, 0)
  {
  }

  /** `info` was stored under the next id, and nothing else changed but the pointer. */
  ghost predicate Appended(s: State, s': State, info: PriceInfo) {
    && s'.currentPriceId == s.currentPriceId + 1 && s'.priceIds == s.priceIds + [s.currentPriceId + 1]
    && forall k: nat :: Info(s', k) == if k == s.currentPriceId + 1 then info else Info(s, k)
  }

  /** The price under the pointer is the oracle's. */
  predicate InSync(sys: System) {
    LatestInfo(sys.pricer).price == PriceData(sys.oracle).price
  }

  /** addPrice succeeds exactly for the updater, with a price, while ids last, and, if it
      is newer than the latest price, with pricer and oracle in sync and a price the
      oracle takes. It stores just what it was given; if newer it moves the pointer and
      the oracle, else neither. */
  lemma AddPriceExactly(sys: System, env: Env, hasRole: bool, price: Uint256, timestamp: nat)
    requires Linked(sys) && StorableOracle(sys.oracle)
    ensures var r := AddPrice(sys, env, hasRole, price, timestamp);
            var newer := timestamp > LatestInfo(sys.pricer).timestamp;
            && (r.Ok? <==>
                  && hasRole && price > 0 && sys.pricer.currentPriceId < MAX_UINT256
                  && (newer ==> InSync(sys) && price < TWO_255 && OracleTakes(sys.oracle, env, env.pricerIsSetter, price)))
            && (r.Ok? ==>
                  && Appended(sys.pricer, r.value.pricer, PriceInfo(price, timestamp))
                  && (newer ==> r.value.pricer.latestPriceId == sys.pricer.currentPriceId + 1
                                && OracleHolds(sys.oracle, r.value.oracle, env, price))
                  && (!newer ==> r.value.pricer.latestPriceId == sys.pricer.latestPriceId
                                 && r.value.oracle == sys.oracle))
  {
    if sys.pricer.currentPriceId < MAX_UINT256 {
      AppendKeepsIds(sys.pricer, PriceInfo(price, timestamp));
    }
    SetOracleExactly(sys.oracle, env, env.pricerIsSetter, ToInt(price));
  }

  /** Why addPrice is rejected before the oracle is asked. */
  lemma AddPriceRejectsWith(sys: System, env: Env, hasRole: bool, price: Uint256, timestamp: nat)
    requires Linked(sys)
    ensures var r := AddPrice(sys, env, hasRole, price, timestamp);
            if !hasRole then r == Revert(MissingRole)
            else if price == 0 then r == Revert(InvalidPrice)
            else if sys.pricer.currentPriceId >= MAX_UINT256 then r == Revert(Panic)
            else if timestamp <= LatestInfo(sys.pricer).timestamp then r.Ok?
            else if !InSync(sys) then r == Revert(LatestPriceMismatch)
            else var asked := SetOracle(sys.oracle, env, env.pricerIsSetter, ToInt(price));
                 r.Revert? ==> asked == Revert(r.error)
  {
    if sys.pricer.currentPriceId < MAX_UINT256 {
      AppendKeepsIds(sys.pricer, PriceInfo(price, timestamp));
    }
  }

  /** The catch-up succeeds exactly for the updater, when price or time differ, while ids
      last; it stores the oracle's data under the next id and points there. */
  lemma AddLatestOraclePriceExactly(sys: System, hasRole: bool)
    requires Linked(sys)
    ensures var r := AddLatestOraclePrice(sys, hasRole);
            && (r.Ok? <==>
                  && hasRole && sys.pricer.currentPriceId < MAX_UINT256
                  && !(InSync(sys) && LatestInfo(sys.pricer).timestamp == PriceData(sys.oracle).timestamp))
            && (r.Ok? ==>
                  && Appended(sys.pricer, r.value.pricer, PriceData(sys.oracle))
                  && r.value.pricer.latestPriceId == sys.pricer.currentPriceId + 1 && r.value.oracle == sys.oracle)
            && (r.Revert? ==>
                  r.error == if !hasRole then MissingRole
                             else if LatestInfo(sys.pricer) == PriceData(sys.oracle) then PricesAlreadyMatch else Panic)
  {
  }

  /** After a catch-up the pricer's latest price is the oracle's data, so a newer price
      can be refused only by the oracle's own rules, never for a mismatch. */
  lemma CatchUpRestoresSync(sys: System, env: Env, hasRole: bool, price: Uint256, timestamp: nat)
    requires IdsInOrder(sys.pricer)
    requires AddLatestOraclePrice(sys, true).Ok?
    ensures var sys' := AddLatestOraclePrice(sys, true).value;
            && LatestInfo(sys'.pricer) == PriceData(sys'.oracle)
            && AddLatestOraclePrice(sys', true) == Revert(PricesAlreadyMatch)
            && (price != 0 && timestamp > LatestInfo(sys'.pricer).timestamp && sys'.pricer.currentPriceId < MAX_UINT256 ==>
                  (AddPrice(sys', env, true, price, timestamp).Ok?
                   <==> SetOracle(sys'.oracle, env, env.pricerIsSetter, ToInt(price)).Ok?))
  {
    var sys' := AddLatestOraclePrice(sys, true).value;
    if sys'.pricer.currentPriceId < MAX_UINT256 {
      AppendKeepsIds(sys.pricer, PriceData(sys.oracle));
      AppendKeepsIds(sys'.pricer, PriceInfo(price, timestamp));
    }
  }
}

/** The pricer with oracle as the contract it is; the oracle contract it calls is
    represented by its state. */
module PricerWithOracleContract {
  import opened Outcomes
  import opened Pricer
  import Spec = PricerWithOracle

  class PricerWithOracle {
    var prices: map<nat, PriceInfo>
    var priceIds: seq<nat>
    var currentPriceId: nat
    var latestPriceId: nat
    var rwaOracle: Spec.Oracle

    function Snapshot(): Spec.System
      reads this
    {
      Spec.System(State(prices, priceIds, currentPriceId, latestPriceId), rwaOracle)
    }

    constructor (oracle: Spec.Oracle)
      ensures Snapshot() == Spec.Init(oracle) && Spec.Inv(Snapshot())
    {
      rwaOracle := oracle;
      currentPriceId := 1;
      prices := map[1 := Spec.PriceData(oracle)];
      priceIds := [1];
      latestPriceId := 1;
      new;
      Spec.InitInv(oracle);
    }

    /** Undoes everything, as a revert does. */
    method Rollback(saved: Spec.System)
      modifies this
      ensures Snapshot() == saved
    {
      prices := saved.pricer.prices;
      priceIds := saved.pricer.priceIds;
      currentPriceId := saved.pricer.currentPriceId;
      latestPriceId := saved.pricer.latestPriceId;
      rwaOracle := saved.oracle;
    }

    method AddPrice(env: Spec.Env, hasRole: bool, price: Uint256, timestamp: nat) returns (r: Result<()>)
      modifies this
      ensures match Spec.AddPrice(old(Snapshot()), env, hasRole, price, timestamp)
              case Ok(s) => r.Ok? && Snapshot() == s
              case Revert(e) => r == Revert(e) && Snapshot() == old(Snapshot())
      ensures old(Spec.Inv(Snapshot())) && timestamp <= env.now ==> Spec.Inv(Snapshot())
    {
      var saved := Snapshot();
      ghost var call := Spec.Call(env, Spec.AddPriceOp(hasRole, price, timestamp));
      if Spec.Inv(saved) && Spec.Step(saved, env, call.op).Ok? {
        Spec.OrderKeptIff(saved, call);
      }
      if !hasRole {
        return Revert(MissingRole);
      }
      if price == 0 {
        return Revert(InvalidPrice);
      }
      var priceId :- CheckedAdd(currentPriceId, 1);
      currentPriceId := priceId;
      prices := prices[priceId := PriceInfo(price, timestamp)];
      priceIds := priceIds + [priceId];
      if timestamp > LatestInfo(Snapshot().pricer).timestamp {
        var updated := Spec.UpdateOraclePrice(Snapshot(), env, price, latestPriceId);
        if updated.Revert? {
          Rollback(saved);
          return Revert(updated.error);
        }
        rwaOracle := updated.value;
        latestPriceId := priceId;
      }
      return Ok(());
    }

    method AddLatestOraclePrice(hasRole: bool) returns (r: Result<()>)
      modifies this
      ensures match Spec.AddLatestOraclePrice(old(Snapshot()), hasRole)
              case Ok(s) => r.Ok? && Snapshot() == s
              case Revert(e) => r == Revert(e) && Snapshot() == old(Snapshot())
    {
      if !hasRole {
        return Revert(MissingRole);
      }
      var latestOracle := Spec.PriceData(rwaOracle);
      if LatestInfo(Snapshot().pricer) == latestOracle {
        return Revert(PricesAlreadyMatch);
      }
      var priceId :- CheckedAdd(currentPriceId, 1);
      currentPriceId := priceId;
      prices := prices[priceId := latestOracle];
      priceIds := priceIds + [priceId];
      latestPriceId := priceId;
      return Ok(());
    }
  }
}
