/** What callers without a role can do: make requests, and claim what operators have
    released. */
module HubAuthority {
  import opened MapSums
  import opened HubLedger
  import opened Hub
  import opened HubBatches
  import HubRuns

  /** Everything an operator sets, apart from records. */
  predicate SameSettings(h: State, h': State) {
    h' == h.(deposits := h'.deposits, redemptions := h'.redemptions, claimableAt := h'.claimableAt,
             subscriptionCounter := h'.subscriptionCounter, redemptionCounter := h'.redemptionCounter,
             collateral := h'.collateral, rwa := h'.rwa)
  }

  lemma {:induction false} ClaimMintsKeepTheRest(h: State, ctx: Context, ids: seq<Id>)
    requires ClaimMints(h, ctx, ids).Ok?
    ensures var h' := ClaimMints(h, ctx, ids).value.hub;
            && h' == h.(deposits := h'.deposits, claimableAt := h'.claimableAt, rwa := h'.rwa)
            && forall id: Id :: Get(h'.claimableAt, id) == if id in ids then 0 else Get(h.claimableAt, id)
  {
    if ids != [] {
      var last := |ids| - 1;
      assert ids == ids[..last] + [ids[last]];
      ClaimMintsKeepTheRest(h, ctx, ids[..last]);
    }
  }

  lemma {:induction false} ClaimRedemptionsKeepTheRest(h: State, ctx: Context, ids: seq<Id>)
    requires ClaimRedemptions(h, ctx, ids).Ok?
    ensures var h' := ClaimRedemptions(h, ctx, ids).value.hub;
            h' == h.(redemptions := h'.redemptions, collateral := h'.collateral)
  {
    if ids != [] {
      ClaimRedemptionsKeepTheRest(h, ctx, ids[..|ids| - 1]);
    }
  }

  /** A record after a call by somebody without a role: as it was, claimed, or the
      caller's own new request, which has no price id. */
  ghost predicate Untampered(ctx: Context, before: map<Id, Record>, after: map<Id, Record>, claimed: seq<Id>, next: Id) {
    forall id: Id ::
      || At(after, id) == At(before, id)
      || (id in claimed && At(after, id) == EMPTY)
      || (id == next && At(after, id).user == ctx.sender && At(after, id).priceId == 0)
  }

  function Claimed(a: Action, mints: bool): seq<Id> {
    if a.ClaimMintAction? && mints then a.ids else if a.ClaimRedemptionAction? && !mints then a.ids else []
  }

  lemma ClaimingIsUntampered(h: State, ctx: Context, a: Action)
    requires a.ClaimMintAction? || a.ClaimRedemptionAction?
    requires Step(h, ctx, a).Ok?
    ensures var h' := Step(h, ctx, a).value.hub;
            && SameSettings(h, h')
            && Untampered(ctx, h.deposits, h'.deposits, Claimed(a, true), h.subscriptionCounter)
            && Untampered(ctx, h.redemptions, h'.redemptions, Claimed(a, false), h.redemptionCounter)
            && forall id: Id :: Get(h'.claimableAt, id) == Get(h.claimableAt, id) || Get(h'.claimableAt, id) == 0
  {
    if a.ClaimMintAction? {
      ClaimMintsKeepTheRest(h, ctx, a.ids);
      ClaimedMintsAreGone(h, ctx, a.ids);
    } else {
      ClaimRedemptionsKeepTheRest(h, ctx, a.ids);
      ClaimedRedemptionsAreGone(h, ctx, a.ids);
    }
  }

  lemma SubscribingIsUntampered(h: State, ctx: Context, amount: nat)
    requires RequestSubscription(h, ctx, amount).Ok?
    ensures var h' := RequestSubscription(h, ctx, amount).value.hub;
            && SameSettings(h, h')
            && Untampered(ctx, h.deposits, h'.deposits, [], h.subscriptionCounter)
            && h'.redemptions == h.redemptions && h'.claimableAt == h.claimableAt
  {
  }

  lemma RedeemingIsUntampered(h: State, ctx: Context, a: Action)
    requires (a.RequestRedemptionAction? || a.RequestOffchainAction?) && Step(h, ctx, a).Ok?
    ensures var h' := Step(h, ctx, a).value.hub;
            && SameSettings(h, h')
            && Untampered(ctx, h.redemptions, h'.redemptions, [], h.redemptionCounter)
            && h'.deposits == h.deposits && h'.claimableAt == h.claimableAt
  {
  }

  lemma OutsiderStep(h: State, ctx: Context, a: Action)
    requires ctx.roles == {} && Step(h, ctx, a).Ok?
    ensures var h' := Step(h, ctx, a).value.hub;
            && SameSettings(h, h')
            && Untampered(ctx, h.deposits, h'.deposits, Claimed(a, true), h.subscriptionCounter)
            && Untampered(ctx, h.redemptions, h'.redemptions, Claimed(a, false), h.redemptionCounter)
            && forall id: Id :: Get(h'.claimableAt, id) == Get(h.claimableAt, id) || Get(h'.claimableAt, id) == 0
  {
    match a
    case ClaimMintAction(_) => ClaimingIsUntampered(h, ctx, a);
    case ClaimRedemptionAction(_) => ClaimingIsUntampered(h, ctx, a);
    case RequestSubscriptionAction(amount) => SubscribingIsUntampered(h, ctx, amount);
    case RequestRedemptionAction(_) => RedeemingIsUntampered(h, ctx, a);
    case RequestOffchainAction(_, _) => RedeemingIsUntampered(h, ctx, a);
    case _ =>
  }

  /** However long nobody with a role calls, no setting changes, no claim time is set,
      and no record gains a price id: one that has a price id at the end had it, with
      the same user and amount, at the start. */
  lemma {:induction false} OutsidersReleaseNothing(h0: State, calls: seq<Call>)
    requires forall i | 0 <= i < |calls| :: calls[i].ctx.roles == {}
    ensures var h := HubRuns.RunEnd(h0, calls);
            && SameSettings(h0, h)
            && (forall id: Id :: At(h.deposits, id).priceId != 0 ==> At(h.deposits, id) == At(h0.deposits, id))
            && (forall id: Id :: At(h.redemptions, id).priceId != 0 ==> At(h.redemptions, id) == At(h0.redemptions, id))
            && (forall id: Id :: Get(h.claimableAt, id) == Get(h0.claimableAt, id) || Get(h.claimableAt, id) == 0)
  {
    if calls != [] {
      var before, last := calls[..|calls| - 1], calls[|calls| - 1];
      OutsidersReleaseNothing(h0, before);
      var h := HubRuns.RunEnd(h0, before);
      if Step(h, last.ctx, last.action).Ok? {
        OutsiderStep(h, last.ctx, last.action);
      }
    }
  }
}
