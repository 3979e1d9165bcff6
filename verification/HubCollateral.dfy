/** Where the collateral goes over whole runs: every balance is the one the hub's events
    tell, so what the ledger counts as paid left the asset sender, and what it counts as
    subscribed reached the deposit address. */
module HubCollateral {
  import opened Outcomes
  import opened FixedPoint
  import opened MapSums
  import opened HubLedger
  import opened Hub
  import opened HubEvents
  import opened HubRefinement
  import HubRuns
  import Token

  function Part(applies: bool, amount: int): int {
    if applies then amount else 0
  }

  /** What an event moves into (or out of) an account, under given payment addresses. */
  function FlowOf(h: State, e: Event, account: Address): int
    requires h.multiplier > 0
  {
    match e
    case MintRequested(user, _, amount, afterFee, fee) =>
      Part(account == h.feeRecipient, fee) + Part(account == ASSET_RECIPIENT, afterFee) - Part(account == user, amount)
    case RedemptionCompleted(user, _, burned, returned, price) =>
      var due := Redeemed(Scale(h.multiplier), burned, price);
      Part(account == user, returned) + Part(account == h.feeRecipient, due - returned) - Part(account == h.assetSender, due)
    case _ => 0
  }

  function Flow(h: State, events: seq<Event>, account: Address): int
    requires h.multiplier > 0
  {
    if events == [] then 0 else
      Flow(h, events[..|events| - 1], account) + FlowOf(h, events[|events| - 1], account)
  }

  lemma FlowOneMore(h: State, events: seq<Event>, e: Event, account: Address)
    requires h.multiplier > 0
    ensures Flow(h, events + [e], account) == Flow(h, events, account) + FlowOf(h, e, account)
  {
    assert (events + [e])[..|events|] == events;
  }

  lemma {:induction false} NoFlow(h: State, events: seq<Event>, account: Address)
    requires h.multiplier > 0 && forall e <- events :: !e.MintRequested? && !e.RedemptionCompleted?
    ensures Flow(h, events, account) == 0
  {
    if events != [] {
      NoFlow(h, events[..|events| - 1], account);
      assert events[|events| - 1] in events;
    }
  }

  /** Any transfer of the hub's, to whomever, at any account. */
  lemma PayFlows(h: State, from: Address, to: Address, amount: nat, account: Address)
    requires Pay(h, from, to, amount).Ok?
    ensures var h' := Pay(h, from, to, amount).value;
            && h' == h.(collateral := h'.collateral)
            && Token.Balance(h'.collateral, account)
               == Token.Balance(h.collateral, account) + Part(account == to, amount) - Part(account == from, amount)
  {
  }

  lemma PayFeeFlows(h: State, from: Address, fee: nat, account: Address)
    requires PayFee(h, from, fee).Ok?
    ensures var h' := PayFee(h, from, fee).value;
            && h' == h.(collateral := h'.collateral)
            && Token.Balance(h'.collateral, account)
               == Token.Balance(h.collateral, account) + Part(account == h.feeRecipient, fee) - Part(account == from, fee)
  {
    if fee > 0 {
      PayFlows(h, from, h.feeRecipient, fee, account);
    }
  }

  lemma CollectFlows(h: State, from: Address, fee: nat, afterFee: nat, account: Address)
    requires Collect(h, from, fee, afterFee).Ok?
    ensures Token.Balance(Collect(h, from, fee, afterFee).value.collateral, account)
            == Token.Balance(h.collateral, account) + Part(account == h.feeRecipient, fee)
               + Part(account == ASSET_RECIPIENT, afterFee) - Part(account == from, fee + afterFee)
  {
    PayFeeFlows(h, from, fee, account);
    PayFlows(PayFee(h, from, fee).value, from, ASSET_RECIPIENT, afterFee, account);
  }

  lemma SubscriptionFlows(h: State, ctx: Context, amount: nat, account: Address)
    requires h.multiplier > 0 && RequestSubscription(h, ctx, amount).Ok?
    ensures var e := RequestSubscription(h, ctx, amount).value;
            Token.Balance(e.hub.collateral, account) == Token.Balance(h.collateral, account) + Flow(h, e.events, account)
  {
    HubRuns.SubscriptionShape(h, ctx, amount);
    var terms, id := SubscriptionTerms(h, ctx, amount).value, h.subscriptionCounter;
    CollectFlows(h.(subscriptionCounter := id + 1, deposits := Put(h.deposits, id, Record(ctx.sender, terms.1, 0))),
                 ctx.sender, terms.0, terms.1, account);
    FlowOneMore(h, [], MintRequested(ctx.sender, id, amount, terms.1, terms.0), account);
    assert [] + [MintRequested(ctx.sender, id, amount, terms.1, terms.0)] == [MintRequested(ctx.sender, id, amount, terms.1, terms.0)];
    assert terms.0 + terms.1 == amount;
  }

  /** The settings that decide who pays and who gets the fees. */
  predicate SameAddresses(h: State, h': State) {
    h'.multiplier == h.multiplier && h'.assetSender == h.assetSender && h'.feeRecipient == h.feeRecipient && h'.self == h.self
  }

  lemma TermsAddUp(h: State, ctx: Context, id: Id)
    requires h.multiplier > 0 && RedemptionTerms(h, ctx, id).Ok?
    ensures var t := RedemptionTerms(h, ctx, id).value;
            && t.event.RedemptionCompleted? && t.event.user == t.user && t.event.collateralAmountReturned == t.postFees
            && t.postFees + t.fee == Redeemed(Scale(h.multiplier), t.event.rwaAmountRequested, t.event.price)
  {
    var member := At(h.redemptions, id);
    RedemptionAmountIsFloor(h.multiplier, member.amount, Get(ctx.prices, member.priceId));
  }

  /** One turn pays its user and leaves its fee with the asset sender for later. */
  lemma TurnFlows(r: Redeeming, ctx: Context, id: Id, account: Address)
    requires r.hub.multiplier > 0 && ClaimRedemptionOne(r, ctx, id).Ok?
    ensures var r', h, t := ClaimRedemptionOne(r, ctx, id).value, r.hub, RedemptionTerms(r.hub, ctx, id).value;
            && r'.events == r.events + [t.event] && SameAddresses(h, r'.hub)
            && Token.Balance(r'.hub.collateral, account) - Token.Balance(h.collateral, account)
               == FlowOf(h, t.event, account)
                  + Part(account == h.assetSender, r'.fees - r.fees) - Part(account == h.feeRecipient, r'.fees - r.fees)
  {
    var h, t := r.hub, RedemptionTerms(r.hub, ctx, id).value;
    TermsAddUp(h, ctx, id);
    PayFlows(h.(redemptions := Put(h.redemptions, id, EMPTY)), h.assetSender, t.user, t.postFees, account);
  }

  lemma FlowDependsOnAddresses(h: State, h': State, e: Event, account: Address)
    requires h.multiplier > 0 && SameAddresses(h, h')
    ensures FlowOf(h', e, account) == FlowOf(h, e, account)
  {
  }

  lemma {:induction false} LoopFlows(h: State, ctx: Context, ids: seq<Id>, account: Address)
    requires h.multiplier > 0 && ClaimRedemptions(h, ctx, ids).Ok?
    ensures var r := ClaimRedemptions(h, ctx, ids).value;
            && SameAddresses(h, r.hub)
            && Token.Balance(r.hub.collateral, account)
               == Token.Balance(h.collateral, account) + Flow(h, r.events, account)
                  + Part(account == h.assetSender, r.fees) - Part(account == h.feeRecipient, r.fees)
  {
    if ids != [] {
      var before, id := ids[..|ids| - 1], ids[|ids| - 1];
      LoopFlows(h, ctx, before, account);
      var r := ClaimRedemptions(h, ctx, before).value;
      TurnFlows(r, ctx, id, account);
      var e := RedemptionTerms(r.hub, ctx, id).value.event;
      FlowOneMore(h, r.events, e, account);
      FlowDependsOnAddresses(h, r.hub, e, account);
    }
  }

  lemma ClaimRedemptionFlows(h: State, ctx: Context, ids: seq<Id>, account: Address)
    requires h.multiplier > 0 && ClaimRedemption(h, ctx, ids).Ok?
    ensures var e := ClaimRedemption(h, ctx, ids).value;
            Token.Balance(e.hub.collateral, account) == Token.Balance(h.collateral, account) + Flow(h, e.events, account)
  {
    LoopFlows(h, ctx, ids, account);
    var r := ClaimRedemptions(h, ctx, ids).value;
    PayFeeFlows(r.hub, r.hub.assetSender, r.fees, account);
  }

  /** Entry points that move no collateral. */
  lemma OthersMoveNothing(h: State, ctx: Context, a: Action)
    requires !a.RequestSubscriptionAction? && !a.ClaimRedemptionAction? && !a.CollateralAction? && Step(h, ctx, a).Ok?
    ensures Step(h, ctx, a).value.hub.collateral == h.collateral
    ensures forall e <- Step(h, ctx, a).value.events :: !e.MintRequested? && !e.RedemptionCompleted?
  {
    match a
    case ClaimMintAction(ids) => ClaimMintsEmit(h, ctx, ids);
    case SetDepositPricesAction(ids, priceIds) => PricesEmit(h, ids, priceIds);
    case SetRedemptionPricesAction(ids, priceIds) => PricesEmit(h, ids, priceIds);
    case SetTimestampAction(t, ids) => TimestampsEmit(h, t, ids);
    case ConfigureAction(setting) => ConfigureKeepsTokens(h, ctx, setting);
    case _ =>
  }

  lemma StepFlows(h: State, ctx: Context, a: Action, account: Address)
    requires h.multiplier > 0 && !a.CollateralAction? && Step(h, ctx, a).Ok?
    ensures var e := Step(h, ctx, a).value;
            Token.Balance(e.hub.collateral, account) == Token.Balance(h.collateral, account) + Flow(h, e.events, account)
  {
    if a.RequestSubscriptionAction? {
      SubscriptionFlows(h, ctx, a.amount, account);
    } else if a.ClaimRedemptionAction? {
      ClaimRedemptionFlows(h, ctx, a.ids, account);
    } else {
      OthersMoveNothing(h, ctx, a);
      NoFlow(h, Step(h, ctx, a).value.events, account);
    }
  }

  // ------------------------------------------------------------- over a run

  /** The events of one call: none if it reverts. */
  function EventsOf(h: State, c: Call): seq<Event> {
    var r := Step(h, c.ctx, c.action);
    if r.Ok? then r.value.events else []
  }

  lemma RunGrows(h0: State, calls: seq<Call>)
    requires calls != []
    ensures var before, last := calls[..|calls| - 1], calls[|calls| - 1];
            HubRuns.RunLog(h0, calls)
            == HubRuns.RunLog(h0, before) + Stamp(last.ctx.now, EventsOf(HubRuns.RunEnd(h0, before), last))
  {
    assert Stamp(calls[|calls| - 1].ctx.now, []) == [];
  }

  lemma KeepsMultiplier(h0: State, calls: seq<Call>)
    requires h0.multiplier > 0
    ensures HubRuns.RunEnd(h0, calls).multiplier == h0.multiplier
  {
    RunRefines(h0, calls);
  }

  /** Each call's flows, under the payment addresses of its time. */
  function RunFlow(h0: State, calls: seq<Call>, account: Address): int
    requires h0.multiplier > 0
  {
    if calls == [] then 0 else
      var before := calls[..|calls| - 1];
      var h := HubRuns.RunEnd(h0, before);
      KeepsMultiplier(h0, before);
      RunFlow(h0, before, account) + Flow(h, EventsOf(h, calls[|calls| - 1]), account)
  }

  ghost predicate OnlyTheHubMoves(calls: seq<Call>) {
    forall i | 0 <= i < |calls| :: !calls[i].action.CollateralAction?
  }

  /** When only the hub moves collateral, every account's balance is its first one plus
      the flows of the run's events. */
  lemma {:induction false} RunCollateral(h0: State, calls: seq<Call>, account: Address)
    requires h0.multiplier > 0 && OnlyTheHubMoves(calls)
    ensures Token.Balance(HubRuns.RunEnd(h0, calls).collateral, account)
            == Token.Balance(h0.collateral, account) + RunFlow(h0, calls, account)
  {
    if calls != [] {
      var before, last := calls[..|calls| - 1], calls[|calls| - 1];
      RunCollateral(h0, before, account);
      KeepsMultiplier(h0, before);
      var h := HubRuns.RunEnd(h0, before);
      if Step(h, last.ctx, last.action).Ok? {
        StepFlows(h, last.ctx, last.action, account);
      }
    }
  }

  /** The account is nobody's deposit or payout in the log. */
  ghost predicate NoUser(log: seq<Entry>, account: Address) {
    forall i | 0 <= i < |log| ::
      && (log[i].event.MintRequested? ==> log[i].event.user != account)
      && (log[i].event.RedemptionCompleted? ==> log[i].event.user != account)
  }

  lemma NoUserSplit(a: seq<Entry>, b: seq<Entry>, account: Address)
    requires NoUser(a + b, account)
    ensures NoUser(a, account) && NoUser(b, account)
  {
    assert forall i | 0 <= i < |a| :: (a + b)[i] == a[i];
    assert forall i | 0 <= i < |b| :: (a + b)[|a| + i] == b[i];
  }

  /** Throughout the run the account pays redemptions, and gets no fees. */
  ghost predicate PaysThroughout(h0: State, calls: seq<Call>, payer: Address) {
    forall i | 0 <= i < |calls| ::
      HubRuns.RunEnd(h0, calls[..i]).assetSender == payer && HubRuns.RunEnd(h0, calls[..i]).feeRecipient != payer
  }

  lemma PaysBefore(h0: State, calls: seq<Call>, payer: Address)
    requires calls != [] && PaysThroughout(h0, calls, payer)
    ensures var before := calls[..|calls| - 1];
            && PaysThroughout(h0, before, payer)
            && HubRuns.RunEnd(h0, before).assetSender == payer && HubRuns.RunEnd(h0, before).feeRecipient != payer
  {
    var before := calls[..|calls| - 1];
    assert forall i | 0 <= i < |before| :: before[..i] == calls[..i];
  }

  lemma {:induction false} PayerFlow(h: State, c: Core, now: nat, events: seq<Event>)
    requires h.multiplier > 0 && h.assetSender != h.feeRecipient && h.assetSender != ASSET_RECIPIENT
    requires NoUser(Stamp(now, events), h.assetSender)
    ensures Flow(h, events, h.assetSender) == 0 - Totals(Scale(h.multiplier), c, Stamp(now, events)).paid
  {
    if events != [] {
      var scale, before, e := Scale(h.multiplier), events[..|events| - 1], events[|events| - 1];
      var log := Stamp(now, events);
      assert log[..|events| - 1] == Stamp(now, before) && log[|events| - 1].event == e;
      assert forall i | 0 <= i < |before| :: Stamp(now, before)[i] == log[i];
      PayerFlow(h, c, now, before);
      PostPays(scale, Replay(c, Stamp(now, before)), Totals(scale, c, Stamp(now, before)), e);
    }
  }

  /** What the books count as paid, fees included, is what left the asset sender. */
  lemma {:induction false} AssetSenderPays(h0: State, calls: seq<Call>, payer: Address)
    requires h0.multiplier > 0 && OnlyTheHubMoves(calls)
    requires PaysThroughout(h0, calls, payer) && payer != ASSET_RECIPIENT && NoUser(HubRuns.RunLog(h0, calls), payer)
    ensures Token.Balance(HubRuns.RunEnd(h0, calls).collateral, payer)
            == Token.Balance(h0.collateral, payer) - HubRuns.RunTotals(h0, calls).paid
  {
    if calls != [] {
      var before, last := calls[..|calls| - 1], calls[|calls| - 1];
      var h := HubRuns.RunEnd(h0, before);
      RunGrows(h0, calls);
      NoUserSplit(HubRuns.RunLog(h0, before), Stamp(last.ctx.now, EventsOf(h, last)), payer);
      PaysBefore(h0, calls, payer);
      AssetSenderPays(h0, before, payer);
      RunRefines(h0, before);
      PaidConcat(Scale(h0.multiplier), CoreOf(h0), HubRuns.RunLog(h0, before), Stamp(last.ctx.now, EventsOf(h, last)));
      PayerFlow(h, CoreOf(h), last.ctx.now, EventsOf(h, last));
      if Step(h, last.ctx, last.action).Ok? {
        StepFlows(h, last.ctx, last.action, payer);
      }
    }
  }

  /** The after-fee amounts of a log's subscriptions; proofs bring no collateral here. */
  function Subscribed(log: seq<Entry>): nat {
    if log == [] then 0 else
      var e := log[|log| - 1].event;
      Subscribed(log[..|log| - 1]) + if e.MintRequested? then e.amountAfterFee else 0
  }

  lemma {:induction false} SubscribedConcat(a: seq<Entry>, b: seq<Entry>)
    ensures Subscribed(a + b) == Subscribed(a) + Subscribed(b)
  {
    if b == [] {
      assert a + b == a;
    } else {
      assert (a + b)[..|a + b| - 1] == a + b[..|b| - 1];
      SubscribedConcat(a, b[..|b| - 1]);
    }
  }

  /** Throughout the run the deposit address neither pays redemptions nor gets fees. */
  ghost predicate OnlyReceivesDeposits(h0: State, calls: seq<Call>) {
    forall i | 0 <= i < |calls| ::
      HubRuns.RunEnd(h0, calls[..i]).assetSender != ASSET_RECIPIENT
      && HubRuns.RunEnd(h0, calls[..i]).feeRecipient != ASSET_RECIPIENT
  }

  lemma ReceivesBefore(h0: State, calls: seq<Call>)
    requires calls != [] && OnlyReceivesDeposits(h0, calls)
    ensures var before := calls[..|calls| - 1];
            && OnlyReceivesDeposits(h0, before)
            && HubRuns.RunEnd(h0, before).assetSender != ASSET_RECIPIENT
            && HubRuns.RunEnd(h0, before).feeRecipient != ASSET_RECIPIENT
  {
    var before := calls[..|calls| - 1];
    assert forall i | 0 <= i < |before| :: before[..i] == calls[..i];
  }

  lemma {:induction false} DepositFlow(h: State, now: nat, events: seq<Event>)
    requires h.multiplier > 0 && h.assetSender != ASSET_RECIPIENT && h.feeRecipient != ASSET_RECIPIENT
    requires NoUser(Stamp(now, events), ASSET_RECIPIENT)
    ensures Flow(h, events, ASSET_RECIPIENT) == Subscribed(Stamp(now, events))
  {
    if events != [] {
      var before, log := events[..|events| - 1], Stamp(now, events);
      assert log[..|events| - 1] == Stamp(now, before) && log[|events| - 1].event == events[|events| - 1];
      assert forall i | 0 <= i < |before| :: Stamp(now, before)[i] == log[i];
      DepositFlow(h, now, before);
    }
  }

  /** What was subscribed after fees is what reached the deposit address. */
  lemma {:induction false} DepositAddressReceives(h0: State, calls: seq<Call>)
    requires h0.multiplier > 0 && OnlyTheHubMoves(calls)
    requires OnlyReceivesDeposits(h0, calls) && NoUser(HubRuns.RunLog(h0, calls), ASSET_RECIPIENT)
    ensures Token.Balance(HubRuns.RunEnd(h0, calls).collateral, ASSET_RECIPIENT)
            == Token.Balance(h0.collateral, ASSET_RECIPIENT) + Subscribed(HubRuns.RunLog(h0, calls))
  {
    if calls != [] {
      var before, last := calls[..|calls| - 1], calls[|calls| - 1];
      var h := HubRuns.RunEnd(h0, before);
      RunGrows(h0, calls);
      NoUserSplit(HubRuns.RunLog(h0, before), Stamp(last.ctx.now, EventsOf(h, last)), ASSET_RECIPIENT);
      ReceivesBefore(h0, calls);
      DepositAddressReceives(h0, before);
      KeepsMultiplier(h0, before);
      SubscribedConcat(HubRuns.RunLog(h0, before), Stamp(last.ctx.now, EventsOf(h, last)));
      DepositFlow(h, last.ctx.now, EventsOf(h, last));
      if Step(h, last.ctx, last.action).Ok? {
        StepFlows(h, last.ctx, last.action, ASSET_RECIPIENT);
      }
    }
  }
}
