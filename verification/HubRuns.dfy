/** The fund's laws over whole runs of the hub: any calls, by anybody, in any order,
    with any price source, lists and token activity around them. */
module HubRuns {
  import opened Outcomes
  import opened FixedPoint
  import opened Division
  import opened MapSums
  import opened HubLedger
  import opened Hub
  import opened HubEvents
  import opened HubRefinement
  import Compounding
  import Token

  // ------------------------------------------------------------- where runs start

  ghost predicate Fresh(h: State) {
    && h.multiplier > 0
    && h.deposits == map[] && h.redemptions == map[] && h.claimableAt == map[]
    && h.subscriptionCounter == h.redemptionCounter == 1
    && h.mintFee == h.redemptionFee == 0
  }

  lemma {:induction false} PowPositive(b: nat, k: nat)
    requires b > 0
    ensures Compounding.Pow(b, k) > 0
  {
    if k > 0 {
      PowPositive(b, k - 1);
      MulMono(1, b, Compounding.Pow(b, k - 1));
    }
  }

  /** Every deployed hub is fresh, with a multiplier of at least one. */
  lemma DeployedFresh(self: Address, collateralAddress: Address, rwaAddress: Address, collateralDecimals: nat, rwaDecimals: nat,
                      assetSender: Address, feeRecipient: Address, minDeposit: nat, minRedemption: nat,
                      collateral: Token.Ledger, rwa: Token.Ledger)
    requires Init(self, collateralAddress, rwaAddress, collateralDecimals, rwaDecimals, assetSender, feeRecipient,
                  minDeposit, minRedemption, collateral, rwa).Ok?
    ensures Fresh(Init(self, collateralAddress, rwaAddress, collateralDecimals, rwaDecimals, assetSender, feeRecipient,
                       minDeposit, minRedemption, collateral, rwa).value)
  {
    PowPositive(10, rwaDecimals - collateralDecimals);
  }

  function RunLog(h0: State, calls: seq<Call>): seq<Entry> {
    Run(World(h0, []), calls).log
  }

  function RunEnd(h0: State, calls: seq<Call>): State {
    Run(World(h0, []), calls).hub
  }

  /** The totals of a run, read off its log. */
  function RunTotals(h0: State, calls: seq<Call>): Books
    requires h0.multiplier > 0
  {
    Totals(Scale(h0.multiplier), CoreOf(h0), RunLog(h0, calls))
  }

  lemma FreshCore(h0: State, lastId: nat)
    requires Fresh(h0)
    ensures Live(h0.deposits) == 0 && Live(h0.redemptions) == 0
    ensures UnusedRedemptionsEmpty(CoreOf(h0)) && UnusedDepositsEmpty(CoreOf(h0), lastId)
  {
    assert Amounts(map[]) == map[];
  }

  // ------------------------------------------------------------- solvency and dust

  /** From any state: what is owed at q, plus what was paid out, is at most what was
      there plus what came in, if q separates mint prices from redemption prices. */
  lemma WholeRunSolvency(h0: State, calls: seq<Call>, q: nat)
    requires h0.multiplier > 0 && PricesAround(RunLog(h0, calls), q)
    ensures var b, scale := RunTotals(h0, calls), Scale(h0.multiplier);
            Value(scale, q, CoreOf(RunEnd(h0, calls))) + b.paid * scale + b.offChain * q
            <= Value(scale, q, CoreOf(h0)) + b.deposited * scale + Adjustments(scale, q, b)
  {
    RunRefines(h0, calls);
    Solvency(Scale(h0.multiplier), CoreOf(h0), RunLog(h0, calls), q);
  }

  /** Nobody else creates fund tokens. */
  ghost predicate HubOnlyMinter(log: seq<Entry>) {
    forall i | 0 <= i < |log| && log[i].event.FundTokenCalled? :: log[i].event.supplyChange <= 0
  }

  ghost predicate NoOutsideSupply(log: seq<Entry>) {
    forall i | 0 <= i < |log| && log[i].event.FundTokenCalled? :: log[i].event.supplyChange == 0
  }

  lemma {:induction false} OutsideTotal(scale: nat, c: Core, log: seq<Entry>)
    requires scale > 0
    ensures HubOnlyMinter(log) ==> Totals(scale, c, log).outside <= 0
    ensures NoOutsideSupply(log) ==> Totals(scale, c, log).outside == 0
  {
    if log != [] {
      OutsideTotal(scale, c, log[..|log| - 1]);
    }
  }

  /** A deployed hub never pays out more collateral, fees included, than was deposited,
      beyond what the tokens that already existed are worth at q. */
  lemma SolvencySinceDeployment(h0: State, calls: seq<Call>, q: nat)
    requires Fresh(h0) && PricesAround(RunLog(h0, calls), q)
    requires NoOverwrites(RunLog(h0, calls)) && HubOnlyMinter(RunLog(h0, calls))
    ensures var b, scale := RunTotals(h0, calls), Scale(h0.multiplier);
            b.paid * scale <= b.deposited * scale + h0.rwa.supply * q
  {
    var scale, log := Scale(h0.multiplier), RunLog(h0, calls);
    RunRefines(h0, calls);
    WholeRunSolvency(h0, calls, q);
    FreshCore(h0, 0);
    RedemptionsNeverDisplaced(scale, CoreOf(h0), log);
    OutsideTotal(scale, CoreOf(h0), log);
    var b := RunTotals(h0, calls);
    ValueNonNegative(scale, q, CoreOf(RunEnd(h0, calls)));
    EmptyValue(scale, q, CoreOf(h0));
    NothingAdjusted(scale, q, b);
    NonNegative(b.offChain, q);
  }

  lemma ValueNonNegative(scale: nat, q: nat, c: Core)
    requires c.supply >= 0
    ensures Value(scale, q, c) >= 0
  {
    NonNegative(Live(c.deposits), scale);
    NonNegative(Live(c.redemptions), q);
    NonNegative(c.supply, q);
  }

  lemma EmptyValue(scale: nat, q: nat, c: Core)
    requires Live(c.deposits) == 0 && Live(c.redemptions) == 0
    ensures Value(scale, q, c) == c.supply * q
  {
  }

  lemma NothingAdjusted(scale: nat, q: nat, b: Books)
    requires b.depositsAdjusted == 0 && b.redemptionsAdjusted == 0 && b.outside <= 0
    ensures Adjustments(scale, q, b) <= 0
    ensures b.outside == 0 ==> Adjustments(scale, q, b) == 0
  {
    NonNegative(-b.outside, q);
  }

  lemma NonNegative(x: int, k: nat)
    requires x >= 0
    ensures x * k >= 0
    ensures (-x) * k == -(x * k)
  {
  }

  /** At one price, what is left of the money that came in is missing only dust: less
      than one price unit a mint and less than one scale unit a redemption. */
  lemma DustAtConstantPrice(h0: State, calls: seq<Call>, p: nat)
    requires Fresh(h0) && PricesExactly(RunLog(h0, calls), p)
    requires NoOverwrites(RunLog(h0, calls)) && NoOutsideSupply(RunLog(h0, calls))
    requires ProofsApart(RunLog(h0, calls), RunEnd(h0, calls).subscriptionCounter)
    ensures var b, scale := RunTotals(h0, calls), Scale(h0.multiplier);
            var shortfall := b.deposited * scale + h0.rwa.supply * p
                             - Value(scale, p, CoreOf(RunEnd(h0, calls))) - b.paid * scale - b.offChain * p;
            0 <= shortfall <= b.mints * (p - 1) + b.redeems * (scale - 1)
  {
    var scale, log := Scale(h0.multiplier), RunLog(h0, calls);
    var lastId := RunEnd(h0, calls).subscriptionCounter;
    RunRefines(h0, calls);
    FreshCore(h0, lastId);
    RedemptionsNeverDisplaced(scale, CoreOf(h0), log);
    DepositsNeverDisplaced(scale, CoreOf(h0), log, lastId);
    OutsideTotal(scale, CoreOf(h0), log);
    EmptyValue(scale, p, CoreOf(h0));
    NothingAdjusted(scale, p, RunTotals(h0, calls));
    ValueEquation(scale, CoreOf(h0), log, p);
    DustBounds(scale, CoreOf(h0), log, p);
  }

  // ------------------------------------------------------------- conservation

  /** The amount in the record that a call writes a new deposit over. */
  function WritesOver(h: State, a: Action): nat {
    match a
    case RequestSubscriptionAction(_) => At(h.deposits, h.subscriptionCounter).amount
    case AddProofAction(txHash, _, _, _, _) => At(h.deposits, txHash).amount
    case _ => 0
  }

  /** The same if the call is accepted; a rejected call writes nothing. */
  function OverwrittenBy(h: State, c: Call): nat {
    if Step(h, c.ctx, c.action).Ok? then WritesOver(h, c.action) else 0
  }

  /** All such amounts of a run. */
  function WrittenOver(h0: State, calls: seq<Call>): nat {
    if calls == [] then 0 else
      var before := calls[..|calls| - 1];
      WrittenOver(h0, before) + OverwrittenBy(RunEnd(h0, before), calls[|calls| - 1])
  }

  /** Every accepted subscription found no amount at the next sequential id, and every
      accepted proof found none at its hash. */
  predicate LandsOnNothing(h0: State, calls: seq<Call>) {
    calls == [] ||
    (var before := calls[..|calls| - 1];
     LandsOnNothing(h0, before) && OverwrittenBy(RunEnd(h0, before), calls[|calls| - 1]) == 0)
  }

  lemma {:induction false} WrittenOverIff(h0: State, calls: seq<Call>)
    ensures WrittenOver(h0, calls) == 0 <==> LandsOnNothing(h0, calls)
  {
    if calls != [] {
      WrittenOverIff(h0, calls[..|calls| - 1]);
    }
  }

  lemma TotalsOfOne(scale: nat, c: Core, now: nat, e: Event)
    requires scale > 0
    ensures Totals(scale, c, Stamp(now, [e])) == Post(scale, c, NOTHING, e)
  {
    var log := Stamp(now, [e]);
    assert log[..0] == [];
  }

  lemma {:induction false} CreatesNothing(scale: nat, c: Core, now: nat, events: seq<Event>)
    requires scale > 0 && forall e <- events :: !e.MintRequested? && !e.DepositProofAdded?
    ensures Totals(scale, c, Stamp(now, events)).depositsDisplaced == 0
  {
    if events != [] {
      var before, log := events[..|events| - 1], Stamp(now, events);
      assert log[..|events| - 1] == Stamp(now, before) && events[|events| - 1] in events;
      CreatesNothing(scale, c, now, before);
      PostDisplaces(scale, Replay(c, Stamp(now, before)), Totals(scale, c, Stamp(now, before)), events[|events| - 1]);
    }
  }

  lemma StepDisplaces(h: State, ctx: Context, a: Action)
    requires h.multiplier > 0 && Step(h, ctx, a).Ok?
    ensures Totals(Scale(h.multiplier), CoreOf(h), Stamp(ctx.now, Step(h, ctx, a).value.events)).depositsDisplaced
            == WritesOver(h, a)
  {
    var scale, events := Scale(h.multiplier), Step(h, ctx, a).value.events;
    if CreatesDeposits(a) {
      TotalsOfOne(scale, CoreOf(h), ctx.now, events[0]);
      assert events == [events[0]];
    } else {
      OthersCreateNothing(h, ctx, a);
      CreatesNothing(scale, CoreOf(h), ctx.now, events);
    }
  }

  lemma {:induction false} RunDisplaces(h0: State, calls: seq<Call>)
    requires h0.multiplier > 0
    ensures RunTotals(h0, calls).depositsDisplaced == WrittenOver(h0, calls)
  {
    if calls != [] {
      var before, last := calls[..|calls| - 1], calls[|calls| - 1];
      RunDisplaces(h0, before);
      RunRefines(h0, before);
      var h := RunEnd(h0, before);
      if Step(h, last.ctx, last.action).Ok? {
        StepDisplaces(h, last.ctx, last.action);
        DisplacedConcat(Scale(h0.multiplier), CoreOf(h0), RunLog(h0, before),
                        Stamp(last.ctx.now, Step(h, last.ctx, last.action).value.events));
      }
    }
  }

  /** Without overwriting: the deposits that came in are live, consumed, or written over
      by a later deposit; so they are conserved exactly when every new deposit lands on
      an empty id, as it does when proof hashes and sequential ids are apart. The tokens
      burned on chain are pending or redeemed, exactly and always. */
  lemma RunConservation(h0: State, calls: seq<Call>)
    requires Fresh(h0) && NoOverwrites(RunLog(h0, calls))
    ensures var b, h := RunTotals(h0, calls), RunEnd(h0, calls);
            && b.deposited == Live(h.deposits) + b.consumed + WrittenOver(h0, calls)
            && (b.deposited == Live(h.deposits) + b.consumed <==> LandsOnNothing(h0, calls))
            && (ProofsApart(RunLog(h0, calls), h.subscriptionCounter) ==> LandsOnNothing(h0, calls))
            && b.burned == Live(h.redemptions) + b.redeemed
            && h.rwa.supply == h0.rwa.supply + b.minted - b.burned - b.offChain + b.outside
  {
    var scale, log := Scale(h0.multiplier), RunLog(h0, calls);
    var lastId := RunEnd(h0, calls).subscriptionCounter;
    RunRefines(h0, calls);
    RunDisplaces(h0, calls);
    WrittenOverIff(h0, calls);
    FreshCore(h0, lastId);
    Conservation(scale, CoreOf(h0), log);
    RedemptionsNeverDisplaced(scale, CoreOf(h0), log);
    if ProofsApart(log, lastId) {
      DepositsNeverDisplaced(scale, CoreOf(h0), log, lastId);
    }
  }

  /** A proof whose hash equals the next sequential id is lost to the next subscription,
      on any hub and whatever the two amounts: the run takes in both deposits, and only
      the second is there afterwards. */
  lemma CollidingProofIsLost(h: State, relayer: Context, user: Address, proved: nat, depositor: Context, amount: nat)
      returns (calls: seq<Call>)
    requires h.multiplier > 0
    requires AddProof(h, relayer, h.subscriptionCounter, user, proved, 0, 0).Ok?
    requires RequestSubscription(h, depositor, amount).Ok?
    ensures var id := h.subscriptionCounter;
            var after := At(RequestSubscription(h, depositor, amount).value.hub.deposits, id).amount;
            && |calls| == 2
            && RunTotals(h, calls).deposited == proved + after
            && WrittenOver(h, calls) == At(h.deposits, id).amount + proved
            && Live(RunEnd(h, calls).deposits) == Live(h.deposits) - At(h.deposits, id).amount + after
  {
    calls := [Call(relayer, AddProofAction(h.subscriptionCounter, user, proved, 0, 0)),
              Call(depositor, RequestSubscriptionAction(amount))];
    var h1 := AddProof(h, relayer, h.subscriptionCounter, user, proved, 0, 0).value.hub;
    SubscriptionIgnoresDeposits(h, h1.deposits, depositor, amount);
    SubscriptionShape(h, depositor, amount);
    SubscriptionShape(h1, depositor, amount);
    CollidingRun(h, calls, h1);
    RunDisplaces(h, calls);
    RunRefines(h, calls);
    Conservation(Scale(h.multiplier), CoreOf(h), RunLog(h, calls));
    CollidingTotals(Scale(h.multiplier), CoreOf(h), RunLog(h, calls));
  }

  /** One such run, from a freshly deployed hub: 100 units proved and 20000 subscribed
      come in, 20000 are there. */
  lemma CollidingProofExample() returns (h: State, calls: seq<Call>)
    ensures Fresh(h) && RunTotals(h, calls).deposited == 20_100 && Live(RunEnd(h, calls).deposits) == 20_000
  {
    var collateral := Token.Ledger(map[7 := 50_000], map[(7, 1) := 50_000], 50_000);
    h := State(1, 1, map[], map[], map[], 1, 1, 10_000, 10_000, 10_000, 0, 0, false, false, false, 2, 3,
               collateral, Token.Ledger(map[], map[], 0));
    var ctx := Context(7, 0, {Relayer}, map[], {}, {}, Token.Open, Token.Roles(false, false), true);
    ExampleTransfers(collateral);
    ExampleSubscribes(h, ctx);
    ExampleProves(h, ctx);
    calls := ExampleCollides(h, ctx);
  }

  lemma ExampleCollides(h: State, ctx: Context) returns (calls: seq<Call>)
    requires Fresh(h) && AddProof(h, ctx, 1, 8, 100, 0, 0).Ok?
    requires RequestSubscription(h, ctx, 20_000).Ok? && SubscriptionTerms(h, ctx, 20_000) == Ok((0, 20_000))
    ensures RunTotals(h, calls).deposited == 20_100 && Live(RunEnd(h, calls).deposits) == 20_000
  {
    SubscriptionShape(h, ctx, 20_000);
    calls := CollidingProofIsLost(h, ctx, 8, 100, ctx, 20_000);
    FreshCore(h, 0);
  }

  lemma ExampleTransfers(l: Token.Ledger)
    requires l == Token.Ledger(map[7 := 50_000], map[(7, 1) := 50_000], 50_000)
    ensures Token.TransferFrom(l, Token.Open, 1, 7, ASSET_RECIPIENT, 20_000).Ok?
  {
  }

  lemma ExampleProves(h: State, ctx: Context)
    requires Fresh(h) && Relayer in ctx.roles && ctx.blocked == {} && ctx.sanctioned == {}
    ensures AddProof(h, ctx, 1, 8, 100, 0, 0).Ok?
  {
  }

  lemma ExampleSubscribes(h: State, ctx: Context)
    requires Fresh(h) && h.self == 1 && !h.subscriptionPaused && h.minimumDepositAmount == 10_000
    requires ctx.sender == 7 && ctx.blocked == {} && ctx.sanctioned == {}
    requires Token.TransferFrom(h.collateral, Token.Open, 1, 7, ASSET_RECIPIENT, 20_000).Ok?
    ensures SubscriptionTerms(h, ctx, 20_000) == Ok((0, 20_000))
    ensures RequestSubscription(h, ctx, 20_000).Ok?
  {
  }

  lemma PayIgnoresDeposits(h: State, deposits: map<Id, Record>, from: Address, to: Address, amount: nat)
    ensures Pay(h, from, to, amount).Ok? <==> Pay(h.(deposits := deposits), from, to, amount).Ok?
    ensures Pay(h, from, to, amount).Ok? ==>
              Pay(h.(deposits := deposits), from, to, amount).value == Pay(h, from, to, amount).value.(deposits := deposits)
  {
  }

  lemma CollectIgnoresDeposits(h: State, deposits: map<Id, Record>, from: Address, fee: nat, afterFee: nat)
    ensures Collect(h, from, fee, afterFee).Ok? <==> Collect(h.(deposits := deposits), from, fee, afterFee).Ok?
  {
    PayIgnoresDeposits(h, deposits, from, h.feeRecipient, fee);
    var paid := PayFee(h, from, fee);
    if paid.Ok? {
      PayIgnoresDeposits(paid.value, deposits, from, ASSET_RECIPIENT, afterFee);
    }
  }

  /** What a subscription does depends on no deposit. */
  lemma SubscriptionIgnoresDeposits(h: State, deposits: map<Id, Record>, ctx: Context, amount: nat)
    requires RequestSubscription(h, ctx, amount).Ok?
    ensures RequestSubscription(h.(deposits := deposits), ctx, amount).Ok?
    ensures SubscriptionTerms(h.(deposits := deposits), ctx, amount) == SubscriptionTerms(h, ctx, amount)
  {
    var terms, id := SubscriptionTerms(h, ctx, amount).value, h.subscriptionCounter;
    var record := Record(ctx.sender, terms.1, 0);
    CollectIgnoresDeposits(h.(subscriptionCounter := id + 1, deposits := Put(h.deposits, id, record)),
                           Put(deposits, id, record), ctx.sender, terms.0, terms.1);
  }

  lemma CollectKeepsDeposits(h: State, from: Address, fee: nat, afterFee: nat)
    requires Collect(h, from, fee, afterFee).Ok?
    ensures Collect(h, from, fee, afterFee).value.deposits == h.deposits
  {
  }

  lemma SubscriptionShape(h: State, ctx: Context, amount: nat)
    requires RequestSubscription(h, ctx, amount).Ok?
    ensures var e, terms := RequestSubscription(h, ctx, amount).value, SubscriptionTerms(h, ctx, amount).value;
            && e.events == [MintRequested(ctx.sender, h.subscriptionCounter, amount, terms.1, terms.0)]
            && At(e.hub.deposits, h.subscriptionCounter) == Record(ctx.sender, terms.1, 0)
  {
    var terms, id := SubscriptionTerms(h, ctx, amount).value, h.subscriptionCounter;
    CollectKeepsDeposits(h.(subscriptionCounter := id + 1, deposits := Put(h.deposits, id, Record(ctx.sender, terms.1, 0))),
                         ctx.sender, terms.0, terms.1);
  }

  lemma CollidingRun(h: State, calls: seq<Call>, h1: State)
    requires |calls| == 2 && Step(h, calls[0].ctx, calls[0].action).Ok?
    requires h1 == Step(h, calls[0].ctx, calls[0].action).value.hub && Step(h1, calls[1].ctx, calls[1].action).Ok?
    ensures var first, second := Step(h, calls[0].ctx, calls[0].action).value, Step(h1, calls[1].ctx, calls[1].action).value;
            && RunEnd(h, calls) == second.hub
            && RunLog(h, calls) == Stamp(calls[0].ctx.now, first.events) + Stamp(calls[1].ctx.now, second.events)
            && WrittenOver(h, calls) == WritesOver(h, calls[0].action) + WritesOver(h1, calls[1].action)
  {
    var one := calls[..1];
    RunOne(h, one);
    assert one[0] == calls[0];
    assert Run(World(h, []), calls) == Exec(Run(World(h, []), one), calls[1]);
  }

  lemma RunOne(h: State, calls: seq<Call>)
    requires |calls| == 1 && Step(h, calls[0].ctx, calls[0].action).Ok?
    ensures var e := Step(h, calls[0].ctx, calls[0].action).value;
            && Run(World(h, []), calls) == World(e.hub, Stamp(calls[0].ctx.now, e.events))
            && WrittenOver(h, calls) == WritesOver(h, calls[0].action)
  {
    var none := calls[..0];
    assert none == [];
    assert Run(World(h, []), none) == World(h, []) && WrittenOver(h, none) == 0;
    assert Exec(World(h, []), calls[0]).log == Stamp(calls[0].ctx.now, Step(h, calls[0].ctx, calls[0].action).value.events);
  }

  lemma CollidingTotals(scale: nat, c: Core, log: seq<Entry>)
    requires scale > 0 && |log| == 2 && log[0].event.DepositProofAdded? && log[1].event.MintRequested?
    ensures var b := Totals(scale, c, log);
            && b.deposited == log[0].event.amountAfterFee + log[1].event.amountAfterFee
            && b.consumed == 0 && b.depositsAdjusted == 0
  {
    var first := log[..1];
    assert first[..0] == [];
    assert Totals(scale, c, first) == Post(scale, c, NOTHING, log[0].event);
  }

  // ------------------------------------------------------------- safety of claims

  /** Each completed mint of a run: see HubLedger.MintSafety. */
  lemma RunMintSafety(h0: State, calls: seq<Call>, k: nat) returns (i: nat, j: nat, t: nat)
    requires Fresh(h0) && k < |RunLog(h0, calls)| && RunLog(h0, calls)[k].event.MintCompleted?
    ensures var log := RunLog(h0, calls);
            var mint := log[k].event;
            && i <= j < k && t < k
            && CreatesDeposit(log[i].event, mint.depositId)
            && Created(log[i].event).user == mint.user && Created(log[i].event).amount == mint.collateralAmount
            && (forall m | i < m < k :: !CreatesDeposit(log[m].event, mint.depositId) && !Mints(log[m].event, mint.depositId))
            && mint.priceId != 0
            && (if i < j then log[j].event == PriceIdSetForDeposit(mint.depositId, mint.priceId)
                else Created(log[i].event).priceId == mint.priceId)
            && log[t].event.ClaimableTimestampSet? && log[t].event.depositId == mint.depositId
            && 0 < log[t].event.claimTimestamp <= log[k].now
            && (forall m | t < m < k :: !Mints(log[m].event, mint.depositId))
            && mint.price != 0 && mint.rwaAmountOut == Minted(Scale(h0.multiplier), mint.collateralAmount, mint.price)
  {
    RunRefines(h0, calls);
    i, j, t := MintSafety(Scale(h0.multiplier), CoreOf(h0), RunLog(h0, calls), k);
  }

  /** Mints of an id never outnumber its creations; without overwriting no redemption
      is paid twice, and a pending one has not been paid. */
  lemma RunClaimsOnce(h0: State, calls: seq<Call>, id: Id)
    requires Fresh(h0)
    ensures CountMints(RunLog(h0, calls), id) <= CountCreations(RunLog(h0, calls), id)
    ensures NoOverwrites(RunLog(h0, calls)) ==>
              && CountPayments(RunLog(h0, calls), id) <= 1
              && (At(RunEnd(h0, calls).redemptions, id).user != ZERO_ADDRESS ==> CountPayments(RunLog(h0, calls), id) == 0)
  {
    var scale, log := Scale(h0.multiplier), RunLog(h0, calls);
    RunRefines(h0, calls);
    MintsAtMostCreations(scale, CoreOf(h0), log, id);
    if NoOverwrites(log) {
      FreshCore(h0, 0);
      PaidAtMostOnce(scale, CoreOf(h0), log, id);
    }
  }

  /** On-chain and off-chain redemption requests never share an id, and without
      overwriting the next id is free, even if a price id was preset for it. */
  lemma RunRedemptionIds(h0: State, calls: seq<Call>)
    requires Fresh(h0)
    ensures var log := RunLog(h0, calls);
            forall i, j | 0 <= i < j < |log| && RequestsRedemption(log[i].event) && RequestsRedemption(log[j].event) ::
              log[i].event.redemptionId < log[j].event.redemptionId
    ensures NoOverwrites(RunLog(h0, calls)) ==> UnusedRedemptionsEmpty(CoreOf(RunEnd(h0, calls)))
  {
    var scale, log := Scale(h0.multiplier), RunLog(h0, calls);
    RunRefines(h0, calls);
    forall i, j | 0 <= i < j < |log| && RequestsRedemption(log[i].event) && RequestsRedemption(log[j].event)
      ensures log[i].event.redemptionId < log[j].event.redemptionId
    {
      RequestIdsIncrease(scale, CoreOf(h0), log, i, j);
    }
    if NoOverwrites(log) {
      FreshCore(h0, 0);
      RedemptionsNeverDisplaced(scale, CoreOf(h0), log);
    }
  }

  // ------------------------------------------------------------- bounds that every state keeps

  /** Fees are at most 100%, and both tokens' balances add up to their supplies. */
  ghost predicate Sound(h: State) {
    && h.mintFee <= BPS_DENOMINATOR && h.redemptionFee <= BPS_DENOMINATOR
    && Token.Valid(h.collateral) && Token.Valid(h.rwa)
  }

  lemma PayKeepsSound(h: State, from: Address, to: Address, amount: nat)
    requires Sound(h) && Pay(h, from, to, amount).Ok?
    ensures Sound(Pay(h, from, to, amount).value)
  {
    Token.TransferFromConserves(h.collateral, Token.Open, h.self, from, to, amount);
  }

  lemma CollectKeepsSound(h: State, from: Address, fee: nat, amount: nat)
    requires Sound(h) && Collect(h, from, fee, amount).Ok?
    ensures Sound(Collect(h, from, fee, amount).value)
  {
    if fee > 0 {
      PayKeepsSound(h, from, h.feeRecipient, fee);
    }
    PayKeepsSound(PayFee(h, from, fee).value, from, ASSET_RECIPIENT, amount);
  }

  lemma SubscriptionKeepsSound(h: State, ctx: Context, amount: nat)
    requires Sound(h) && RequestSubscription(h, ctx, amount).Ok?
    ensures Sound(RequestSubscription(h, ctx, amount).value.hub)
  {
    var terms := SubscriptionTerms(h, ctx, amount).value;
    var recorded := h.(subscriptionCounter := h.subscriptionCounter + 1,
                       deposits := Put(h.deposits, h.subscriptionCounter, Record(ctx.sender, terms.1, 0)));
    CollectKeepsSound(recorded, ctx.sender, terms.0, terms.1);
  }

  lemma {:induction false} ClaimMintsKeepSound(h: State, ctx: Context, ids: seq<Id>)
    requires Sound(h) && ClaimMints(h, ctx, ids).Ok?
    ensures Sound(ClaimMints(h, ctx, ids).value.hub)
  {
    if ids != [] {
      var last := |ids| - 1;
      ClaimMintsKeepSound(h, ctx, ids[..last]);
      var before := ClaimMints(h, ctx, ids[..last]).value.hub;
      var d := At(before.deposits, ids[last]);
      var owed := MintAmountForPrice(before.multiplier, d.amount, Get(ctx.prices, d.priceId)).value;
      Token.MintConserves(before.rwa, ctx.fundGate, before.self, d.user, owed);
    }
  }

  lemma ClaimRedemptionOneKeepsSound(r: Redeeming, ctx: Context, id: Id)
    requires Sound(r.hub) && ClaimRedemptionOne(r, ctx, id).Ok?
    ensures Sound(ClaimRedemptionOne(r, ctx, id).value.hub)
  {
    var h, t := r.hub, RedemptionTerms(r.hub, ctx, id).value;
    PayKeepsSound(h.(redemptions := Put(h.redemptions, id, EMPTY)), h.assetSender, t.user, t.postFees);
  }

  lemma {:induction false} ClaimRedemptionsKeepSound(h: State, ctx: Context, ids: seq<Id>)
    requires Sound(h) && ClaimRedemptions(h, ctx, ids).Ok?
    ensures Sound(ClaimRedemptions(h, ctx, ids).value.hub)
  {
    if ids != [] {
      var last := |ids| - 1;
      ClaimRedemptionsKeepSound(h, ctx, ids[..last]);
      ClaimRedemptionOneKeepsSound(ClaimRedemptions(h, ctx, ids[..last]).value, ctx, ids[last]);
    }
  }

  lemma ClaimRedemptionKeepsSound(h: State, ctx: Context, ids: seq<Id>)
    requires Sound(h) && ClaimRedemption(h, ctx, ids).Ok?
    ensures Sound(ClaimRedemption(h, ctx, ids).value.hub)
  {
    ClaimRedemptionsKeepSound(h, ctx, ids);
    var r := ClaimRedemptions(h, ctx, ids).value;
    if r.fees > 0 {
      PayKeepsSound(r.hub, r.hub.assetSender, r.hub.feeRecipient, r.fees);
    }
  }

  lemma BurningKeepsSound(h: State, ctx: Context, amount: nat)
    requires Sound(h) && Token.BurnFrom(h.rwa, ctx.fundGate, h.self, ctx.sender, amount).Ok?
    ensures Token.Valid(Token.BurnFrom(h.rwa, ctx.fundGate, h.self, ctx.sender, amount).value)
  {
    Token.BurnFromConserves(h.rwa, ctx.fundGate, h.self, ctx.sender, amount);
  }

  /** The parts of the state that Sound is about. */
  predicate SameMoney(h: State, h': State) {
    h'.mintFee == h.mintFee && h'.redemptionFee == h.redemptionFee && h'.collateral == h.collateral && h'.rwa == h.rwa
  }

  lemma {:induction false} PricesKeepMoney(h: State, ids: seq<Id>, priceIds: seq<nat>)
    requires |ids| == |priceIds|
    ensures SetDepositPrices(h, ids, priceIds).Ok? ==> SameMoney(h, SetDepositPrices(h, ids, priceIds).value.hub)
    ensures SetRedemptionPrices(h, ids, priceIds).Ok? ==> SameMoney(h, SetRedemptionPrices(h, ids, priceIds).value.hub)
  {
    if ids != [] {
      PricesKeepMoney(h, ids[..|ids| - 1], priceIds[..|ids| - 1]);
    }
  }

  lemma {:induction false} TimestampsKeepMoney(h: State, t: nat, ids: seq<Id>)
    ensures SameMoney(h, SetTimestamps(h, t, ids).hub)
  {
    if ids != [] {
      TimestampsKeepMoney(h, t, ids[..|ids| - 1]);
    }
  }

  lemma ConfigureKeepsSound(h: State, ctx: Context, setting: Setting)
    requires Sound(h) && Configure(h, ctx, setting).Ok?
    ensures Sound(Configure(h, ctx, setting).value)
  {
  }

  lemma StepKeepsSound(h: State, ctx: Context, a: Action)
    requires Sound(h) && Step(h, ctx, a).Ok?
    ensures Sound(Step(h, ctx, a).value.hub)
  {
    match a
    case RequestSubscriptionAction(amount) => SubscriptionKeepsSound(h, ctx, amount);
    case ClaimMintAction(ids) => ClaimMintsKeepSound(h, ctx, ids);
    case RequestRedemptionAction(amount) => BurningKeepsSound(h, ctx, amount);
    case RequestOffchainAction(amount, _) => BurningKeepsSound(h, ctx, amount);
    case ClaimRedemptionAction(ids) => ClaimRedemptionKeepsSound(h, ctx, ids);
    case AddProofAction(_, _, _, _, _) =>
    case SetDepositPricesAction(ids, priceIds) => PricesKeepMoney(h, ids, priceIds);
    case SetRedemptionPricesAction(ids, priceIds) => PricesKeepMoney(h, ids, priceIds);
    case SetTimestampAction(t, ids) => TimestampsKeepMoney(h, t, ids);
    case OverwriteDepositorAction(_, _) =>
    case OverwriteRedeemerAction(_, _) =>
    case ConfigureAction(setting) => ConfigureKeepsSound(h, ctx, setting);
    case FundTokenAction(op) => Token.StepConserves(h.rwa, Token.Call(ctx.fundGate, ctx.sender, ctx.fundRoles, op));
    case CollateralAction(op) =>
      Token.StepConserves(h.collateral, Token.Call(Token.Open, ctx.sender, Token.Roles(true, true), op));
  }

  lemma {:induction false} RunKeepsSound(h0: State, calls: seq<Call>)
    requires Sound(h0)
    ensures Sound(RunEnd(h0, calls))
  {
    if calls != [] {
      var before := calls[..|calls| - 1];
      RunKeepsSound(h0, before);
      var h, last := RunEnd(h0, before), calls[|calls| - 1];
      if Step(h, last.ctx, last.action).Ok? {
        StepKeepsSound(h, last.ctx, last.action);
      }
    }
  }

  /** In every reachable state the fee of any amount is at most the amount: neither
      after-fee subtraction of the hub can revert, and more never leaves less. */
  lemma FeesNeverUnderflow(h0: State, calls: seq<Call>, amount: nat, more: nat)
    requires Sound(h0) && amount <= more
    ensures var h := RunEnd(h0, calls);
            && 0 <= AfterFee(amount, h.mintFee) <= AfterFee(more, h.mintFee)
            && 0 <= AfterFee(amount, h.redemptionFee) <= AfterFee(more, h.redemptionFee)
            && (Fee(amount, h.mintFee).Ok? ==>
                  CheckedSub(amount, Fee(amount, h.mintFee).value) == Ok(AfterFee(amount, h.mintFee)))
            && (Fee(amount, h.redemptionFee).Ok? ==>
                  CheckedSub(amount, Fee(amount, h.redemptionFee).value) == Ok(AfterFee(amount, h.redemptionFee)))
  {
    RunKeepsSound(h0, calls);
    var h := RunEnd(h0, calls);
    AfterFeeMonotone(amount, more, h.mintFee);
    AfterFeeMonotone(amount, more, h.redemptionFee);
  }
}
