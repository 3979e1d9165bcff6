/** What kinds of events each entry point emits, and which ledgers it leaves alone. */
module HubEvents {
  import opened HubLedger
  import opened Hub

  lemma {:induction false} ClaimMintsEmit(h: State, ctx: Context, ids: seq<Id>)
    requires ClaimMints(h, ctx, ids).Ok?
    ensures ClaimMints(h, ctx, ids).value.hub.collateral == h.collateral
    ensures forall e <- ClaimMints(h, ctx, ids).value.events :: e.MintCompleted?
  {
    if ids != [] {
      ClaimMintsEmit(h, ctx, ids[..|ids| - 1]);
    }
  }

  lemma ClaimRedemptionOneEmits(r: Redeeming, ctx: Context, id: Id)
    requires ClaimRedemptionOne(r, ctx, id).Ok?
    ensures var r' := ClaimRedemptionOne(r, ctx, id).value;
            r'.hub.rwa == r.hub.rwa && forall e <- r'.events :: e in r.events || e.RedemptionCompleted?
  {
    var e := RedemptionTerms(r.hub, ctx, id).value.event;
    assert ClaimRedemptionOne(r, ctx, id).value.events == r.events + [e];
  }

  lemma {:induction false} ClaimRedemptionsEmit(h: State, ctx: Context, ids: seq<Id>)
    requires ClaimRedemptions(h, ctx, ids).Ok?
    ensures ClaimRedemptions(h, ctx, ids).value.hub.rwa == h.rwa
    ensures forall e <- ClaimRedemptions(h, ctx, ids).value.events :: e.RedemptionCompleted?
  {
    if ids != [] {
      var before := ids[..|ids| - 1];
      ClaimRedemptionsEmit(h, ctx, before);
      ClaimRedemptionOneEmits(ClaimRedemptions(h, ctx, before).value, ctx, ids[|ids| - 1]);
    }
  }

  lemma {:induction false} PricesEmit(h: State, ids: seq<Id>, priceIds: seq<nat>)
    requires |ids| == |priceIds|
    ensures SetDepositPrices(h, ids, priceIds).Ok? ==>
              var e := SetDepositPrices(h, ids, priceIds).value;
              e.hub.rwa == h.rwa && e.hub.collateral == h.collateral && forall x <- e.events :: x.PriceIdSetForDeposit?
    ensures SetRedemptionPrices(h, ids, priceIds).Ok? ==>
              var e := SetRedemptionPrices(h, ids, priceIds).value;
              e.hub.rwa == h.rwa && e.hub.collateral == h.collateral && forall x <- e.events :: x.PriceIdSetForRedemption?
  {
    if ids != [] {
      PricesEmit(h, ids[..|ids| - 1], priceIds[..|ids| - 1]);
    }
  }

  lemma {:induction false} TimestampsEmit(h: State, t: nat, ids: seq<Id>)
    ensures SetTimestamps(h, t, ids).hub.rwa == h.rwa && SetTimestamps(h, t, ids).hub.collateral == h.collateral
    ensures forall e <- SetTimestamps(h, t, ids).events :: e.ClaimableTimestampSet?
  {
    if ids != [] {
      TimestampsEmit(h, t, ids[..|ids| - 1]);
    }
  }

  lemma ConfigureKeepsTokens(h: State, ctx: Context, setting: Setting)
    requires Configure(h, ctx, setting).Ok?
    ensures Configure(h, ctx, setting).value.rwa == h.rwa && Configure(h, ctx, setting).value.collateral == h.collateral
  {
  }

  lemma SubscriptionEmits(h: State, ctx: Context, amount: nat)
    requires RequestSubscription(h, ctx, amount).Ok?
    ensures RequestSubscription(h, ctx, amount).value.hub.rwa == h.rwa
    ensures forall e <- RequestSubscription(h, ctx, amount).value.events :: e.MintRequested?
  {
  }

  /** Entry points other than these create no deposit. */
  predicate CreatesDeposits(a: Action) {
    a.RequestSubscriptionAction? || a.AddProofAction?
  }

  lemma OthersCreateNothing(h: State, ctx: Context, a: Action)
    requires !CreatesDeposits(a) && Step(h, ctx, a).Ok?
    ensures forall e <- Step(h, ctx, a).value.events :: !e.MintRequested? && !e.DepositProofAdded?
  {
    match a
    case ClaimMintAction(ids) => ClaimMintsEmit(h, ctx, ids);
    case ClaimRedemptionAction(ids) => ClaimRedemptionsEmit(h, ctx, ids);
    case SetDepositPricesAction(ids, priceIds) => PricesEmit(h, ids, priceIds);
    case SetRedemptionPricesAction(ids, priceIds) => PricesEmit(h, ids, priceIds);
    case SetTimestampAction(t, ids) => TimestampsEmit(h, t, ids);
    case _ =>
  }
}
