/** The hub refines its event log: every successful call emits events that were
    justified when they were emitted, and replaying them gives the new storage. */
module HubRefinement {
  import opened Outcomes
  import opened FixedPoint
  import opened HubLedger
  import opened Hub
  import Token

  function CoreOf(h: State): Core {
    Core(h.deposits, h.redemptions, h.claimableAt, h.subscriptionCounter, h.redemptionCounter, h.rwa.supply)
  }

  ghost predicate Refines(h: State, now: nat, h': State, events: seq<Event>)
    requires h.multiplier > 0
  {
    && h'.multiplier == h.multiplier
    && Justified(Scale(h.multiplier), CoreOf(h), Stamp(now, events))
    && Replay(CoreOf(h), Stamp(now, events)) == CoreOf(h')
  }

  lemma RefinesByOne(h: State, now: nat, h': State, e: Event)
    requires h.multiplier > 0 && h'.multiplier == h.multiplier
    requires Guard(Scale(h.multiplier), CoreOf(h), Entry(now, e)) && Apply(CoreOf(h), e) == CoreOf(h')
    ensures Refines(h, now, h', [e])
  {
    var log := Stamp(now, [e]);
    assert log[..0] == [];
    assert log[0] == Entry(now, e);
  }

  lemma RefinesByNone(h: State, now: nat)
    requires h.multiplier > 0
    ensures Refines(h, now, h, [])
  {
    assert Stamp(now, []) == [];
  }

  lemma RefinesThen(h: State, now: nat, h1: State, e1: seq<Event>, h2: State, e2: seq<Event>)
    requires h.multiplier > 0 && Refines(h, now, h1, e1) && Refines(h1, now, h2, e2)
    ensures Refines(h, now, h2, e1 + e2)
  {
    assert Stamp(now, e1 + e2) == Stamp(now, e1) + Stamp(now, e2);
    ReplayConcat(Scale(h.multiplier), CoreOf(h), Stamp(now, e1), Stamp(now, e2));
  }

  // ------------------------------------------------------------- one entry point at a time

  lemma SubscriptionRefines(h: State, ctx: Context, amount: nat)
    requires h.multiplier > 0 && RequestSubscription(h, ctx, amount).Ok?
    ensures var e := RequestSubscription(h, ctx, amount).value; Refines(h, ctx.now, e.hub, e.events)
  {
    var e := RequestSubscription(h, ctx, amount).value;
    RefinesByOne(h, ctx.now, e.hub, e.events[0]);
  }

  lemma ClaimMintOneRefines(h: State, ctx: Context, id: Id)
    requires h.multiplier > 0 && ClaimMintOne(h, ctx, id).Ok?
    ensures var e := ClaimMintOne(h, ctx, id).value; Refines(h, ctx.now, e.hub, e.events)
  {
    var e := ClaimMintOne(h, ctx, id).value;
    MintAmountIsFloor(h.multiplier, At(h.deposits, id).amount, e.events[0].price);
    RefinesByOne(h, ctx.now, e.hub, e.events[0]);
  }

  lemma {:induction false} ClaimMintsRefine(h: State, ctx: Context, ids: seq<Id>)
    requires h.multiplier > 0 && ClaimMints(h, ctx, ids).Ok?
    ensures var e := ClaimMints(h, ctx, ids).value; Refines(h, ctx.now, e.hub, e.events)
  {
    if ids == [] {
      RefinesByNone(h, ctx.now);
    } else {
      var last := |ids| - 1;
      ClaimMintsRefine(h, ctx, ids[..last]);
      var before := ClaimMints(h, ctx, ids[..last]).value;
      ClaimMintOneRefines(before.hub, ctx, ids[last]);
      var one := ClaimMintOne(before.hub, ctx, ids[last]).value;
      RefinesThen(h, ctx.now, before.hub, before.events, one.hub, one.events);
    }
  }

  lemma RequestRedemptionRefines(h: State, ctx: Context, amount: nat)
    requires h.multiplier > 0 && RequestRedemption(h, ctx, amount).Ok?
    ensures var e := RequestRedemption(h, ctx, amount).value; Refines(h, ctx.now, e.hub, e.events)
  {
    var e := RequestRedemption(h, ctx, amount).value;
    RefinesByOne(h, ctx.now, e.hub, e.events[0]);
  }

  lemma RequestOffchainRefines(h: State, ctx: Context, amount: nat, destination: nat)
    requires h.multiplier > 0 && RequestRedemptionServicedOffchain(h, ctx, amount, destination).Ok?
    ensures var e := RequestRedemptionServicedOffchain(h, ctx, amount, destination).value;
            Refines(h, ctx.now, e.hub, e.events)
  {
    var e := RequestRedemptionServicedOffchain(h, ctx, amount, destination).value;
    RefinesByOne(h, ctx.now, e.hub, e.events[0]);
  }

  lemma ClaimRedemptionOneRefines(r: Redeeming, ctx: Context, id: Id)
    requires r.hub.multiplier > 0 && ClaimRedemptionOne(r, ctx, id).Ok?
    ensures var r' := ClaimRedemptionOne(r, ctx, id).value;
            && |r'.events| == |r.events| + 1 && r'.events[..|r.events|] == r.events
            && Refines(r.hub, ctx.now, r'.hub, [r'.events[|r.events|]])
  {
    var r' := ClaimRedemptionOne(r, ctx, id).value;
    var e := r'.events[|r.events|];
    RedemptionAmountIsFloor(r.hub.multiplier, At(r.hub.redemptions, id).amount, e.price);
    RefinesByOne(r.hub, ctx.now, r'.hub, e);
  }

  lemma {:induction false} ClaimRedemptionsRefine(h: State, ctx: Context, ids: seq<Id>)
    requires h.multiplier > 0 && ClaimRedemptions(h, ctx, ids).Ok?
    ensures var r := ClaimRedemptions(h, ctx, ids).value; Refines(h, ctx.now, r.hub, r.events)
  {
    if ids == [] {
      RefinesByNone(h, ctx.now);
    } else {
      var last := |ids| - 1;
      ClaimRedemptionsRefine(h, ctx, ids[..last]);
      var before := ClaimRedemptions(h, ctx, ids[..last]).value;
      ClaimRedemptionOneRefines(before, ctx, ids[last]);
      var after := ClaimRedemptionOne(before, ctx, ids[last]).value;
      var e := after.events[|before.events|];
      assert after.events == before.events + [e];
      RefinesThen(h, ctx.now, before.hub, before.events, after.hub, [e]);
    }
  }

  lemma SameCoreRefines(h: State, now: nat, h1: State, h2: State, events: seq<Event>)
    requires h.multiplier > 0 && Refines(h, now, h1, events)
    requires CoreOf(h2) == CoreOf(h1) && h2.multiplier == h1.multiplier
    ensures Refines(h, now, h2, events)
  {
  }

  lemma ClaimRedemptionRefines(h: State, ctx: Context, ids: seq<Id>)
    requires h.multiplier > 0 && ClaimRedemption(h, ctx, ids).Ok?
    ensures var e := ClaimRedemption(h, ctx, ids).value; Refines(h, ctx.now, e.hub, e.events)
  {
    ClaimRedemptionsRefine(h, ctx, ids);
    var r := ClaimRedemptions(h, ctx, ids).value;
    SameCoreRefines(h, ctx.now, r.hub, ClaimRedemption(h, ctx, ids).value.hub, r.events);
  }

  lemma AddProofRefines(h: State, ctx: Context, a: Action)
    requires h.multiplier > 0 && a.AddProofAction? && Step(h, ctx, a).Ok?
    ensures var e := Step(h, ctx, a).value; Refines(h, ctx.now, e.hub, e.events)
  {
    var e := Step(h, ctx, a).value;
    RefinesByOne(h, ctx.now, e.hub, e.events[0]);
  }

  lemma {:induction false} SetDepositPricesRefine(h: State, now: nat, ids: seq<Id>, priceIds: seq<nat>)
    requires h.multiplier > 0 && |ids| == |priceIds| && SetDepositPrices(h, ids, priceIds).Ok?
    ensures var e := SetDepositPrices(h, ids, priceIds).value; Refines(h, now, e.hub, e.events)
  {
    if ids == [] {
      RefinesByNone(h, now);
    } else {
      var last := |ids| - 1;
      SetDepositPricesRefine(h, now, ids[..last], priceIds[..last]);
      var before := SetDepositPrices(h, ids[..last], priceIds[..last]).value;
      var one := SetDepositPrice(before.hub, ids[last], priceIds[last]).value;
      RefinesByOne(before.hub, now, one.hub, one.events[0]);
      RefinesThen(h, now, before.hub, before.events, one.hub, one.events);
    }
  }

  lemma {:induction false} SetRedemptionPricesRefine(h: State, now: nat, ids: seq<Id>, priceIds: seq<nat>)
    requires h.multiplier > 0 && |ids| == |priceIds| && SetRedemptionPrices(h, ids, priceIds).Ok?
    ensures var e := SetRedemptionPrices(h, ids, priceIds).value; Refines(h, now, e.hub, e.events)
  {
    if ids == [] {
      RefinesByNone(h, now);
    } else {
      var last := |ids| - 1;
      SetRedemptionPricesRefine(h, now, ids[..last], priceIds[..last]);
      var before := SetRedemptionPrices(h, ids[..last], priceIds[..last]).value;
      var one := SetRedemptionPrice(before.hub, ids[last], priceIds[last]).value;
      RefinesByOne(before.hub, now, one.hub, one.events[0]);
      RefinesThen(h, now, before.hub, before.events, one.hub, one.events);
    }
  }

  lemma {:induction false} SetTimestampsRefine(h: State, now: nat, t: nat, ids: seq<Id>)
    requires h.multiplier > 0 && t >= now
    ensures var e := SetTimestamps(h, t, ids); Refines(h, now, e.hub, e.events)
  {
    if ids == [] {
      RefinesByNone(h, now);
    } else {
      var last := |ids| - 1;
      SetTimestampsRefine(h, now, t, ids[..last]);
      var before := SetTimestamps(h, t, ids[..last]);
      var after := SetTimestamps(h, t, ids);
      RefinesByOne(before.hub, now, after.hub, ClaimableTimestampSet(t, ids[last]));
      RefinesThen(h, now, before.hub, before.events, after.hub, [ClaimableTimestampSet(t, ids[last])]);
    }
  }

  lemma OverwritesRefine(h: State, ctx: Context, a: Action)
    requires h.multiplier > 0 && (a.OverwriteDepositorAction? || a.OverwriteRedeemerAction?) && Step(h, ctx, a).Ok?
    ensures var e := Step(h, ctx, a).value; Refines(h, ctx.now, e.hub, e.events)
  {
    var e := Step(h, ctx, a).value;
    RefinesByOne(h, ctx.now, e.hub, e.events[0]);
  }

  lemma ConfigureKeepsCore(h: State, ctx: Context, setting: Setting)
    requires Configure(h, ctx, setting).Ok?
    ensures CoreOf(Configure(h, ctx, setting).value) == CoreOf(h)
    ensures Configure(h, ctx, setting).value.multiplier == h.multiplier
  {
  }

  lemma ConfigureRefines(h: State, ctx: Context, setting: Setting)
    requires h.multiplier > 0 && Configure(h, ctx, setting).Ok?
    ensures Refines(h, ctx.now, Configure(h, ctx, setting).value, [OtherEvent])
  {
    ConfigureKeepsCore(h, ctx, setting);
    RefinesByOne(h, ctx.now, Configure(h, ctx, setting).value, OtherEvent);
  }

  lemma CollateralRefines(h: State, now: nat, collateral: Token.Ledger)
    requires h.multiplier > 0
    ensures Refines(h, now, h.(collateral := collateral), [OtherEvent])
  {
    RefinesByOne(h, now, h.(collateral := collateral), OtherEvent);
  }

  lemma TokenSupply(l: Token.Ledger, g: Token.Gate, sender: Address, roles: Token.Roles, op: Token.Op)
    requires Token.Step(l, g, sender, roles, op).Ok?
    ensures Token.Step(l, g, sender, roles, op).value.supply == l.supply + Token.SupplyChange(op)
  {
  }

  lemma FundTokenRefines(h: State, ctx: Context, a: Action)
    requires h.multiplier > 0 && a.FundTokenAction? && Step(h, ctx, a).Ok?
    ensures var e := Step(h, ctx, a).value; Refines(h, ctx.now, e.hub, e.events)
  {
    var e := Step(h, ctx, a).value;
    TokenSupply(h.rwa, ctx.fundGate, ctx.sender, ctx.fundRoles, a.op);
    RefinesByOne(h, ctx.now, e.hub, e.events[0]);
  }

  /** Every successful call of the hub. */
  lemma StepRefines(h: State, ctx: Context, a: Action)
    requires h.multiplier > 0 && Step(h, ctx, a).Ok?
    ensures var e := Step(h, ctx, a).value; Refines(h, ctx.now, e.hub, e.events)
  {
    match a
    case RequestSubscriptionAction(amount) => SubscriptionRefines(h, ctx, amount);
    case ClaimMintAction(ids) => ClaimMintsRefine(h, ctx, ids);
    case RequestRedemptionAction(amount) => RequestRedemptionRefines(h, ctx, amount);
    case RequestOffchainAction(amount, destination) => RequestOffchainRefines(h, ctx, amount, destination);
    case ClaimRedemptionAction(ids) => ClaimRedemptionRefines(h, ctx, ids);
    case AddProofAction(_, _, _, _, _) => AddProofRefines(h, ctx, a);
    case SetDepositPricesAction(ids, priceIds) => SetDepositPricesRefine(h, ctx.now, ids, priceIds);
    case SetRedemptionPricesAction(ids, priceIds) => SetRedemptionPricesRefine(h, ctx.now, ids, priceIds);
    case SetTimestampAction(t, ids) => SetTimestampsRefine(h, ctx.now, t, ids);
    case OverwriteDepositorAction(_, _) => OverwritesRefine(h, ctx, a);
    case OverwriteRedeemerAction(_, _) => OverwritesRefine(h, ctx, a);
    case ConfigureAction(setting) => ConfigureRefines(h, ctx, setting);
    case FundTokenAction(_) => FundTokenRefines(h, ctx, a);
    case CollateralAction(op) => CollateralRefines(h, ctx.now, Step(h, ctx, a).value.hub.collateral);
  }

  /** Every run: its whole log is justified from where it started, and the storage it
      ends with is the replay of that log. */
  lemma {:induction false} RunRefines(h0: State, calls: seq<Call>)
    requires h0.multiplier > 0
    ensures var w := Run(World(h0, []), calls);
            && w.hub.multiplier == h0.multiplier
            && Justified(Scale(h0.multiplier), CoreOf(h0), w.log)
            && Replay(CoreOf(h0), w.log) == CoreOf(w.hub)
  {
    if calls != [] {
      var last := calls[|calls| - 1];
      RunRefines(h0, calls[..|calls| - 1]);
      var w := Run(World(h0, []), calls[..|calls| - 1]);
      if Step(w.hub, last.ctx, last.action).Ok? {
        StepRefines(w.hub, last.ctx, last.action);
        ReplayConcat(Scale(h0.multiplier), CoreOf(h0), w.log,
                     Stamp(last.ctx.now, Step(w.hub, last.ctx, last.action).value.events));
      }
    }
  }
}
