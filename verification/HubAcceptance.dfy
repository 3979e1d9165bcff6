/** When the hub's entry points succeed: the exact conditions, in terms a caller can
    look up beforehand. */
module HubAcceptance {
  import opened Outcomes
  import opened FixedPoint
  import opened MapSums
  import opened HubLedger
  import opened Hub
  import opened HubBatches
  import HubRuns
  import Token

  // ------------------------------------------------------------- requests

  predicate Unrestricted(ctx: Context, account: Address) {
    account !in ctx.blocked && account !in ctx.sanctioned
  }

  lemma SubscriptionTermsIff(h: State, ctx: Context, amount: nat)
    requires h.mintFee <= BPS_DENOMINATOR
    ensures var after := AfterFee(amount, h.mintFee);
            && 0 <= after <= amount
            && (SubscriptionTerms(h, ctx, amount).Ok? <==>
                  && !h.subscriptionPaused && Unrestricted(ctx, ctx.sender)
                  && amount >= h.minimumDepositAmount && amount * h.mintFee <= MAX_UINT256)
            && (SubscriptionTerms(h, ctx, amount).Ok? ==> SubscriptionTerms(h, ctx, amount).value == (amount - after, after))
  {
    AfterFeeMonotone(amount, amount, h.mintFee);
  }

  /** The hub may spend `amount` of the account's collateral. */
  predicate MaySpend(h: State, from: Address, amount: nat) {
    Token.MaySpend(h.collateral, from, h.self, amount)
  }

  /** Any transfer the hub makes, to whomever: when it succeeds, and what may be sent next. */
  lemma TransferIff(h: State, from: Address, to: Address, amount: nat, next: nat)
    requires Token.Valid(h.collateral)
    ensures Pay(h, from, to, amount).Ok? <==>
            from != ZERO_ADDRESS && to != ZERO_ADDRESS
            && MaySpend(h, from, amount) && Token.Balance(h.collateral, from) >= amount
    ensures Pay(h, from, to, amount).Ok? ==>
              var h' := Pay(h, from, to, amount).value;
              && Token.Valid(h'.collateral) && h' == h.(collateral := h'.collateral)
              && (MaySpend(h', from, next) <==> MaySpend(h, from, amount + next))
              && Token.Balance(h'.collateral, from) == Token.Balance(h.collateral, from) - (if from == to then 0 else amount)
  {
    Token.BalancesFit(h.collateral, from);
    if from != to {
      Token.TwoBalancesFit(h.collateral, from, to);
    }
    if Pay(h, from, to, amount).Ok? {
      Token.TransferFromConserves(h.collateral, Token.Open, h.self, from, to, amount);
    }
  }

  /** The sender's balance covers the two transfers of a subscription. Fees sent to
      oneself stay available for the deposit. */
  predicate CoversBoth(h: State, from: Address, fee: nat, afterFee: nat) {
    if from == h.feeRecipient then Token.Balance(h.collateral, from) >= fee && Token.Balance(h.collateral, from) >= afterFee
    else Token.Balance(h.collateral, from) >= fee + afterFee
  }

  lemma CollectSucceedsIff(h: State, from: Address, fee: nat, afterFee: nat)
    requires Token.Valid(h.collateral)
    ensures Collect(h, from, fee, afterFee).Ok? <==>
            && from != ZERO_ADDRESS && (fee > 0 ==> h.feeRecipient != ZERO_ADDRESS)
            && MaySpend(h, from, fee + afterFee) && CoversBoth(h, from, fee, afterFee)
  {
    if fee > 0 {
      TransferIff(h, from, h.feeRecipient, fee, afterFee);
    }
    var paid := PayFee(h, from, fee);
    if paid.Ok? {
      TransferIff(paid.value, from, ASSET_RECIPIENT, afterFee, 0);
    }
  }

  lemma SubscriptionCollects(h: State, ctx: Context, amount: nat)
    requires Token.Valid(h.collateral) && SubscriptionTerms(h, ctx, amount).Ok?
    ensures var terms := SubscriptionTerms(h, ctx, amount).value;
            RequestSubscription(h, ctx, amount).Ok? <==>
            && h.subscriptionCounter < MAX_UINT256
            && ctx.sender != ZERO_ADDRESS && (terms.0 > 0 ==> h.feeRecipient != ZERO_ADDRESS)
            && MaySpend(h, ctx.sender, terms.0 + terms.1) && CoversBoth(h, ctx.sender, terms.0, terms.1)
  {
    var terms, id := SubscriptionTerms(h, ctx, amount).value, h.subscriptionCounter;
    CollectSucceedsIff(h.(subscriptionCounter := id + 1, deposits := Put(h.deposits, id, Record(ctx.sender, terms.1, 0))),
                       ctx.sender, terms.0, terms.1);
  }

  /** A subscription succeeds exactly when subscriptions are not paused, the sender is
      unrestricted, the amount is large enough and not too large, and the sender's
      collateral and its allowance to the hub cover the amount. */
  lemma SubscriptionSucceedsIff(h: State, ctx: Context, amount: nat)
    requires h.mintFee <= BPS_DENOMINATOR && Token.Valid(h.collateral)
    ensures var after := AfterFee(amount, h.mintFee);
            && 0 <= after <= amount
            && (RequestSubscription(h, ctx, amount).Ok? <==>
                  && !h.subscriptionPaused && Unrestricted(ctx, ctx.sender)
                  && amount >= h.minimumDepositAmount && amount * h.mintFee <= MAX_UINT256
                  && h.subscriptionCounter < MAX_UINT256
                  && ctx.sender != ZERO_ADDRESS && (after < amount ==> h.feeRecipient != ZERO_ADDRESS)
                  && MaySpend(h, ctx.sender, amount) && CoversBoth(h, ctx.sender, amount - after, after))
  {
    SubscriptionTermsIff(h, ctx, amount);
    if SubscriptionTerms(h, ctx, amount).Ok? {
      SubscriptionCollects(h, ctx, amount);
    }
  }

  /** The fund token lets the hub mint to, or burn from, an account: it is not paused, and
      both pass its lists. */
  ghost predicate GateAdmits(g: Token.Gate, hub: Address, account: Address) {
    || g.Open?
    || (!g.paused && Token.Passes(g.lists, account) && (hub != ZERO_ADDRESS ==> Token.Passes(g.lists, hub)))
  }

  lemma GateAdmitsIff(g: Token.Gate, hub: Address, account: Address)
    requires account != ZERO_ADDRESS
    ensures Token.Hook(g, hub, ZERO_ADDRESS, account).Ok? <==> GateAdmits(g, hub, account)
    ensures Token.Hook(g, hub, account, ZERO_ADDRESS).Ok? <==> GateAdmits(g, hub, account)
  {
    Token.HookIff(g, hub, ZERO_ADDRESS, account);
    Token.HookIff(g, hub, account, ZERO_ADDRESS);
  }

  /** The hub may burn `amount` of the sender's fund tokens. */
  ghost predicate MayBurn(h: State, ctx: Context, amount: nat) {
    && ctx.sender != ZERO_ADDRESS
    && Token.MaySpend(h.rwa, ctx.sender, h.self, amount)
    && GateAdmits(ctx.fundGate, h.self, ctx.sender)
    && Token.Balance(h.rwa, ctx.sender) >= amount
  }

  /** The two kinds of redemption request differ only in their pause switch and minimum. */
  lemma RedemptionRequestsSucceedIff(h: State, ctx: Context, amount: nat, destination: nat)
    requires Token.Valid(h.rwa)
    ensures RequestRedemption(h, ctx, amount).Ok? <==>
            !h.redemptionPaused && amount >= h.minimumRedemptionAmount
            && h.redemptionCounter < MAX_UINT256 && MayBurn(h, ctx, amount)
    ensures RequestRedemptionServicedOffchain(h, ctx, amount, destination).Ok? <==>
            !h.offChainRedemptionPaused && amount >= h.minimumOffChainRedemptionAmount
            && h.redemptionCounter < MAX_UINT256 && MayBurn(h, ctx, amount)
  {
    Token.BalancesFit(h.rwa, ctx.sender);
    if ctx.sender != ZERO_ADDRESS {
      GateAdmitsIff(ctx.fundGate, h.self, ctx.sender);
    }
  }

  // ------------------------------------------------------------- mint batches

  function MintPrice(h: State, ctx: Context, id: Id): nat {
    Get(ctx.prices, At(h.deposits, id).priceId)
  }

  /** What claiming an id mints. */
  function Owed(h: State, ctx: Context, id: Id): nat {
    if MintPrice(h, ctx, id) == 0 then 0
    else Minted(Scale(h.multiplier), At(h.deposits, id).amount, MintPrice(h, ctx, id))
  }

  function SumOwed(h: State, ctx: Context, ids: seq<Id>): nat {
    if ids == [] then 0 else SumOwed(h, ctx, ids[..|ids| - 1]) + Owed(h, ctx, ids[|ids| - 1])
  }

  /** A deposit whose claim time has come, with a price, for a user who may hold. */
  ghost predicate Claimable(h: State, ctx: Context, id: Id) {
    var d := At(h.deposits, id);
    && 0 < Get(h.claimableAt, id) <= ctx.now
    && d.priceId != 0 && MintPrice(h, ctx, id) != 0
    && d.amount * Scale(h.multiplier) <= MAX_UINT256
    && ctx.hubIsMinter && d.user != ZERO_ADDRESS
    && GateAdmits(ctx.fundGate, h.self, d.user)
  }

  lemma ClaimOneSucceedsIff(h: State, ctx: Context, id: Id)
    requires h.multiplier > 0 && Token.Valid(h.rwa)
    ensures ClaimMintOne(h, ctx, id).Ok? <==> Claimable(h, ctx, id) && h.rwa.supply + Owed(h, ctx, id) <= MAX_UINT256
    ensures ClaimMintOne(h, ctx, id).Ok? ==>
              var h' := ClaimMintOne(h, ctx, id).value.hub;
              && Token.Valid(h'.rwa) && h'.rwa.supply == h.rwa.supply + Owed(h, ctx, id)
              && h'.multiplier == h.multiplier && h'.self == h.self
  {
    var d := At(h.deposits, id);
    MintAmountIsFloor(h.multiplier, d.amount, MintPrice(h, ctx, id));
    Token.BalancesFit(h.rwa, d.user);
    if d.user != ZERO_ADDRESS {
      GateAdmitsIff(ctx.fundGate, h.self, d.user);
    }
    if ClaimMintOne(h, ctx, id).Ok? {
      Token.MintConserves(h.rwa, ctx.fundGate, h.self, d.user, Owed(h, ctx, id));
    }
  }

  /** Other ids' claims are untouched by a batch. */
  lemma {:induction false} BatchLeavesOthers(h: State, ctx: Context, ids: seq<Id>, id: Id)
    requires h.multiplier > 0 && Token.Valid(h.rwa) && ClaimMints(h, ctx, ids).Ok?
    ensures var h' := ClaimMints(h, ctx, ids).value.hub;
            && Token.Valid(h'.rwa) && h'.rwa.supply == h.rwa.supply + SumOwed(h, ctx, ids)
            && h'.multiplier == h.multiplier && h'.self == h.self
            && (id !in ids ==> At(h'.deposits, id) == At(h.deposits, id) && Get(h'.claimableAt, id) == Get(h.claimableAt, id))
            && (id in ids ==> Get(h'.claimableAt, id) == 0)
  {
    if ids != [] {
      var last := |ids| - 1;
      assert ids == ids[..last] + [ids[last]];
      BatchLeavesOthers(h, ctx, ids[..last], id);
      BatchLeavesOthers(h, ctx, ids[..last], ids[last]);
      ClaimOneSucceedsIff(ClaimMints(h, ctx, ids[..last]).value.hub, ctx, ids[last]);
    }
  }

  ghost predicate BatchReady(h: State, ctx: Context, ids: seq<Id>) {
    && Distinct(ids)
    && (forall id <- ids :: Claimable(h, ctx, id))
    && h.rwa.supply + SumOwed(h, ctx, ids) <= MAX_UINT256
  }

  lemma ReadyForOneMore(h: State, ctx: Context, ids: seq<Id>, id: Id)
    ensures BatchReady(h, ctx, ids + [id]) <==>
            BatchReady(h, ctx, ids) && id !in ids && Claimable(h, ctx, id)
            && h.rwa.supply + SumOwed(h, ctx, ids) + Owed(h, ctx, id) <= MAX_UINT256
  {
    var more := ids + [id];
    assert more[..|more| - 1] == ids;
    DistinctAndOneMore(ids, id);
  }

  lemma OneMoreSucceedsIff(h: State, ctx: Context, ids: seq<Id>, id: Id)
    requires h.multiplier > 0 && Token.Valid(h.rwa) && ClaimMints(h, ctx, ids).Ok?
    ensures ClaimMintOne(ClaimMints(h, ctx, ids).value.hub, ctx, id).Ok? <==>
            id !in ids && Claimable(h, ctx, id)
            && h.rwa.supply + SumOwed(h, ctx, ids) + Owed(h, ctx, id) <= MAX_UINT256
  {
    BatchLeavesOthers(h, ctx, ids, id);
    ClaimOneSucceedsIff(ClaimMints(h, ctx, ids).value.hub, ctx, id);
  }

  lemma {:induction false} ClaimMintsSucceedIff(h: State, ctx: Context, ids: seq<Id>)
    requires h.multiplier > 0 && Token.Valid(h.rwa)
    ensures ClaimMints(h, ctx, ids).Ok? <==> BatchReady(h, ctx, ids)
  {
    if ids != [] {
      var before, id := ids[..|ids| - 1], ids[|ids| - 1];
      assert ids == before + [id];
      ClaimMintsSucceedIff(h, ctx, before);
      ReadyForOneMore(h, ctx, before, id);
      if ClaimMints(h, ctx, before).Ok? {
        OneMoreSucceedsIff(h, ctx, before, id);
      }
    } else {
      assert h.rwa.supply <= MAX_UINT256;
    }
  }

  /** A mint batch succeeds exactly when minting is not paused, its ids are distinct,
      each is claimable now, and the supply can take all of it. */
  lemma ClaimMintSucceedsIff(h: State, ctx: Context, ids: seq<Id>)
    requires h.multiplier > 0 && Token.Valid(h.rwa)
    ensures ClaimMint(h, ctx, ids).Ok? <==>
            && !h.subscriptionPaused && Distinct(ids)
            && (forall id <- ids :: Claimable(h, ctx, id))
            && h.rwa.supply + SumOwed(h, ctx, ids) <= MAX_UINT256
  {
    ClaimMintsSucceedIff(h, ctx, ids);
  }

  // ------------------------------------------------------------- redemption batches

  function RedemptionPrice(h: State, ctx: Context, id: Id): nat {
    Get(ctx.prices, At(h.redemptions, id).priceId)
  }

  /** Collateral due for a redemption, fee included. */
  function DueFor(h: State, ctx: Context, id: Id): nat
    requires h.multiplier > 0
  {
    Redeemed(Scale(h.multiplier), At(h.redemptions, id).amount, RedemptionPrice(h, ctx, id))
  }

  /** What its user gets of that. */
  function PostFor(h: State, ctx: Context, id: Id): (post: nat)
    requires h.multiplier > 0 && h.redemptionFee <= BPS_DENOMINATOR
    ensures post <= DueFor(h, ctx, id)
  {
    AfterFeeMonotone(DueFor(h, ctx, id), DueFor(h, ctx, id), h.redemptionFee);
    AfterFee(DueFor(h, ctx, id), h.redemptionFee)
  }

  function SumDue(h: State, ctx: Context, ids: seq<Id>): nat
    requires h.multiplier > 0
  {
    if ids == [] then 0 else SumDue(h, ctx, ids[..|ids| - 1]) + DueFor(h, ctx, ids[|ids| - 1])
  }

  function SumPost(h: State, ctx: Context, ids: seq<Id>): nat
    requires h.multiplier > 0 && h.redemptionFee <= BPS_DENOMINATOR
  {
    if ids == [] then 0 else SumPost(h, ctx, ids[..|ids| - 1]) + PostFor(h, ctx, ids[|ids| - 1])
  }

  /** A redemption with a price id, for a user who may be paid. A price of zero is fine. */
  predicate Payable(h: State, ctx: Context, id: Id)
    requires h.multiplier > 0
  {
    var r := At(h.redemptions, id);
    && r.user != ZERO_ADDRESS && Unrestricted(ctx, r.user) && r.priceId != 0
    && r.amount * RedemptionPrice(h, ctx, id) <= MAX_UINT256
    && DueFor(h, ctx, id) * h.redemptionFee <= MAX_UINT256
  }

  /** The hub may send `total` of the asset sender's collateral. */
  predicate MaySend(h: State, total: nat) {
    && h.assetSender != ZERO_ADDRESS && MaySpend(h, h.assetSender, total)
    && Token.Balance(h.collateral, h.assetSender) >= total
  }

  /** A redemption's amounts, exactly as its record, the price and the fee make them. */
  lemma TermsIff(h: State, ctx: Context, id: Id)
    requires h.multiplier > 0 && h.redemptionFee <= BPS_DENOMINATOR && At(h.redemptions, id).user != ZERO_ADDRESS
    ensures RedemptionTerms(h, ctx, id).Ok? <==> Payable(h, ctx, id)
    ensures RedemptionTerms(h, ctx, id).Ok? ==>
              var r, post := At(h.redemptions, id), PostFor(h, ctx, id);
              && post <= DueFor(h, ctx, id)
              && RedemptionTerms(h, ctx, id).value == Terms(r.user, post, DueFor(h, ctx, id) - post,
                   RedemptionCompleted(r.user, id, r.amount, post, RedemptionPrice(h, ctx, id)))
  {
    RedemptionAmountIsFloor(h.multiplier, At(h.redemptions, id).amount, RedemptionPrice(h, ctx, id));
    AfterFeeMonotone(DueFor(h, ctx, id), DueFor(h, ctx, id), h.redemptionFee);
  }

  /** A transfer out of the asset sender: when it can be made, and what may be sent next. */
  lemma SendingIff(h: State, to: Address, amount: nat, next: nat)
    requires Token.Valid(h.collateral) && h.assetSender != to
    ensures Pay(h, h.assetSender, to, amount).Ok? <==> MaySend(h, amount) && to != ZERO_ADDRESS
    ensures Pay(h, h.assetSender, to, amount).Ok? ==>
              (MaySend(Pay(h, h.assetSender, to, amount).value, next) <==> MaySend(h, amount + next))
  {
    OutExactly(h.collateral, h.self, h.assetSender, to, amount);
    Token.TwoBalancesFit(h.collateral, h.assetSender, to);
  }

  lemma TurnSucceedsIff(r: Redeeming, ctx: Context, id: Id, next: nat)
    requires HubRuns.Sound(r.hub) && r.hub.multiplier > 0 && r.hub.assetSender != At(r.hub.redemptions, id).user
    ensures var post, due := PostFor(r.hub, ctx, id), DueFor(r.hub, ctx, id);
            && post <= due
            && (ClaimRedemptionOne(r, ctx, id).Ok? <==>
                  Payable(r.hub, ctx, id) && r.fees + due - post <= MAX_UINT256 && MaySend(r.hub, post))
            && (ClaimRedemptionOne(r, ctx, id).Ok? ==>
                  var r' := ClaimRedemptionOne(r, ctx, id).value;
                  && r'.fees == r.fees + due - post
                  && r'.events == r.events + [RedemptionCompleted(At(r.hub.redemptions, id).user, id, At(r.hub.redemptions, id).amount,
                                                                  post, RedemptionPrice(r.hub, ctx, id))]
                  && (MaySend(r'.hub, next) <==> MaySend(r.hub, post + next)))
  {
    var h := r.hub;
    AfterFeeMonotone(DueFor(h, ctx, id), DueFor(h, ctx, id), h.redemptionFee);
    var deleted := h.(redemptions := Put(h.redemptions, id, EMPTY));
    var post := PostFor(h, ctx, id);
    SendingIff(deleted, At(h.redemptions, id).user, post, next);
    ClaimOneByTerms(r, ctx, id);
    if At(h.redemptions, id).user != ZERO_ADDRESS {
      TermsIff(h, ctx, id);
    } else {
      NobodyIsPaid(r, ctx, id);
    }
  }

  lemma NobodyIsPaid(r: Redeeming, ctx: Context, id: Id)
    requires At(r.hub.redemptions, id).user == ZERO_ADDRESS
    ensures ClaimRedemptionOne(r, ctx, id).Revert?
  {
  }

  lemma SameQuote(h: State, h': State, ctx: Context, id: Id)
    requires h.multiplier == h'.multiplier > 0 && h.redemptionFee == h'.redemptionFee <= BPS_DENOMINATOR
    requires At(h'.redemptions, id) == At(h.redemptions, id)
    ensures PostFor(h', ctx, id) == PostFor(h, ctx, id) && DueFor(h', ctx, id) == DueFor(h, ctx, id)
    ensures Payable(h', ctx, id) <==> Payable(h, ctx, id)
  {
  }

  /** Where the money of a redemption loop stands after `ids`. */
  ghost predicate Stands(h: State, ctx: Context, ids: seq<Id>, r: Redeeming, next: nat)
    requires h.multiplier > 0 && h.redemptionFee <= BPS_DENOMINATOR
  {
    && SumPost(h, ctx, ids) + r.fees == SumDue(h, ctx, ids)
    && (MaySend(r.hub, next) <==> MaySend(h, SumPost(h, ctx, ids) + next))
  }

  /** The turn after `before`, in terms of where the batch started. */
  lemma NextTurn(h: State, ctx: Context, before: seq<Id>, id: Id, next: nat)
    requires HubRuns.Sound(h) && h.multiplier > 0 && ClaimRedemptions(h, ctx, before).Ok?
    requires At(h.redemptions, id).user != h.assetSender
    requires Stands(h, ctx, before, ClaimRedemptions(h, ctx, before).value, PostFor(h, ctx, id) + next)
    requires Stands(h, ctx, before, ClaimRedemptions(h, ctx, before).value, PostFor(h, ctx, id))
    ensures var r, ids := ClaimRedemptions(h, ctx, before).value, before + [id];
            && (ClaimRedemptionOne(r, ctx, id).Ok? <==>
                  && id !in before && Payable(h, ctx, id)
                  && SumDue(h, ctx, ids) - SumPost(h, ctx, ids) <= MAX_UINT256
                  && MaySend(h, SumPost(h, ctx, ids)))
            && (ClaimRedemptionOne(r, ctx, id).Ok? ==> Stands(h, ctx, ids, ClaimRedemptionOne(r, ctx, id).value, next))
  {
    var r, ids := ClaimRedemptions(h, ctx, before).value, before + [id];
    assert ids[..|ids| - 1] == before;
    LoopFrame(h, ctx, before);
    HubRuns.ClaimRedemptionsKeepSound(h, ctx, before);
    ClaimedRedemptionsAreGone(h, ctx, before);
    if id in before {
      NobodyIsPaid(r, ctx, id);
    } else {
      SameQuote(h, r.hub, ctx, id);
      TurnSucceedsIff(r, ctx, id, next);
    }
  }

  lemma {:induction false} LoopStands(h: State, ctx: Context, ids: seq<Id>, next: nat)
    requires HubRuns.Sound(h) && h.multiplier > 0 && ClaimRedemptions(h, ctx, ids).Ok?
    requires forall id <- ids :: At(h.redemptions, id).user != h.assetSender
    ensures Stands(h, ctx, ids, ClaimRedemptions(h, ctx, ids).value, next)
  {
    if ids != [] {
      var before, id := ids[..|ids| - 1], ids[|ids| - 1];
      assert ids == before + [id];
      LoopStands(h, ctx, before, PostFor(h, ctx, id) + next);
      LoopStands(h, ctx, before, PostFor(h, ctx, id));
      NextTurn(h, ctx, before, id, next);
    }
  }

  ghost predicate RedeemReady(h: State, ctx: Context, ids: seq<Id>)
    requires h.multiplier > 0 && h.redemptionFee <= BPS_DENOMINATOR
  {
    && Distinct(ids)
    && (forall id <- ids :: Payable(h, ctx, id))
    && SumDue(h, ctx, ids) - SumPost(h, ctx, ids) <= MAX_UINT256
    && (ids != [] ==> MaySend(h, SumPost(h, ctx, ids)))
  }

  lemma RedeemReadyForOneMore(h: State, ctx: Context, ids: seq<Id>, id: Id)
    requires h.multiplier > 0 && h.redemptionFee <= BPS_DENOMINATOR
    ensures var more := ids + [id];
            RedeemReady(h, ctx, more) <==>
            && RedeemReady(h, ctx, ids) && id !in ids && Payable(h, ctx, id)
            && SumDue(h, ctx, more) - SumPost(h, ctx, more) <= MAX_UINT256
            && MaySend(h, SumPost(h, ctx, more))
  {
    var more := ids + [id];
    assert more[..|more| - 1] == ids;
    DistinctAndOneMore(ids, id);
  }

  lemma LoopOneMoreIff(h: State, ctx: Context, ids: seq<Id>, id: Id)
    requires HubRuns.Sound(h) && h.multiplier > 0 && ClaimRedemptions(h, ctx, ids).Ok? && RedeemReady(h, ctx, ids)
    requires forall i <- ids + [id] :: At(h.redemptions, i).user != h.assetSender
    ensures ClaimRedemptionOne(ClaimRedemptions(h, ctx, ids).value, ctx, id).Ok? <==> RedeemReady(h, ctx, ids + [id])
  {
    DistinctAndOneMore(ids, id);
    RedeemReadyForOneMore(h, ctx, ids, id);
    LoopStands(h, ctx, ids, PostFor(h, ctx, id));
    NextTurn(h, ctx, ids, id, 0);
  }

  lemma {:induction false} LoopSucceedsIff(h: State, ctx: Context, ids: seq<Id>)
    requires HubRuns.Sound(h) && h.multiplier > 0
    requires forall id <- ids :: At(h.redemptions, id).user != h.assetSender
    ensures ClaimRedemptions(h, ctx, ids).Ok? <==> RedeemReady(h, ctx, ids)
  {
    if ids != [] {
      var before, id := ids[..|ids| - 1], ids[|ids| - 1];
      assert ids == before + [id];
      LoopSucceedsIff(h, ctx, before);
      if ClaimRedemptions(h, ctx, before).Ok? {
        LoopOneMoreIff(h, ctx, before, id);
      } else {
        RedeemReadyForOneMore(h, ctx, before, id);
      }
    }
  }

  /** A redemption batch succeeds exactly when redemptions are not paused, its ids are
      distinct, each is payable, the asset sender's balance and allowance cover all the
      collateral due, and the fee recipient can be paid if there are fees. The source of
      the payments must not be among those who receive them. */
  lemma ClaimRedemptionSucceedsIff(h: State, ctx: Context, ids: seq<Id>)
    requires HubRuns.Sound(h) && h.multiplier > 0 && h.assetSender != h.feeRecipient
    requires forall id <- ids :: At(h.redemptions, id).user != h.assetSender
    ensures ClaimRedemption(h, ctx, ids).Ok? <==>
            && !h.redemptionPaused && Distinct(ids)
            && (forall id <- ids :: Payable(h, ctx, id))
            && (ids != [] ==> MaySend(h, SumDue(h, ctx, ids)))
            && (SumDue(h, ctx, ids) != SumPost(h, ctx, ids) ==> h.feeRecipient != ZERO_ADDRESS)
  {
    LoopSucceedsIff(h, ctx, ids);
    PostAtMostDue(h, ctx, ids);
    Token.BalancesFit(h.collateral, h.assetSender);
    var loop := ClaimRedemptions(h, ctx, ids);
    if loop.Ok? {
      LoopFrame(h, ctx, ids);
      HubRuns.ClaimRedemptionsKeepSound(h, ctx, ids);
      LoopStands(h, ctx, ids, loop.value.fees);
      SendingIff(loop.value.hub, h.feeRecipient, loop.value.fees, 0);
    }
  }

  lemma {:induction false} PostAtMostDue(h: State, ctx: Context, ids: seq<Id>)
    requires h.multiplier > 0 && h.redemptionFee <= BPS_DENOMINATOR
    ensures SumPost(h, ctx, ids) <= SumDue(h, ctx, ids)
  {
    if ids != [] {
      PostAtMostDue(h, ctx, ids[..|ids| - 1]);
    }
  }

  // ------------------------------------------------------------- what batches report

  lemma {:induction false} LoopReports(h: State, ctx: Context, ids: seq<Id>)
    requires HubRuns.Sound(h) && h.multiplier > 0 && ClaimRedemptions(h, ctx, ids).Ok?
    requires forall id <- ids :: At(h.redemptions, id).user != h.assetSender
    ensures var events := ClaimRedemptions(h, ctx, ids).value.events;
            && |events| == |ids|
            && forall k | 0 <= k < |ids| ::
                 var r := At(h.redemptions, ids[k]);
                 events[k] == RedemptionCompleted(r.user, ids[k], r.amount, PostFor(h, ctx, ids[k]), RedemptionPrice(h, ctx, ids[k]))
  {
    if ids != [] {
      var before, id := ids[..|ids| - 1], ids[|ids| - 1];
      assert ids == before + [id];
      LoopReports(h, ctx, before);
      var r := ClaimRedemptions(h, ctx, before).value;
      LoopFrame(h, ctx, before);
      HubRuns.ClaimRedemptionsKeepSound(h, ctx, before);
      ClaimedRedemptionsAreGone(h, ctx, ids);
      ClaimedRedemptionsAreGone(h, ctx, before);
      SameQuote(h, r.hub, ctx, id);
      TurnSucceedsIff(r, ctx, id, 0);
    }
  }

  /** A redemption batch reports, in its order, each record's user and amount, the price
      of the record's price id, and the collateral due at that price less the fee. */
  lemma ClaimRedemptionReports(h: State, ctx: Context, ids: seq<Id>)
    requires HubRuns.Sound(h) && h.multiplier > 0 && ClaimRedemption(h, ctx, ids).Ok?
    requires forall id <- ids :: At(h.redemptions, id).user != h.assetSender
    ensures var events := ClaimRedemption(h, ctx, ids).value.events;
            && |events| == |ids|
            && forall k | 0 <= k < |ids| ::
                 var r := At(h.redemptions, ids[k]);
                 events[k] == RedemptionCompleted(r.user, ids[k], r.amount, PostFor(h, ctx, ids[k]), RedemptionPrice(h, ctx, ids[k]))
  {
    LoopReports(h, ctx, ids);
  }

  /** A mint batch reports each record's user and amount, the price of the record's
      price id, and the fund tokens the amount is worth at that price. */
  lemma {:induction false} ClaimMintsReport(h: State, ctx: Context, ids: seq<Id>)
    requires h.multiplier > 0 && Token.Valid(h.rwa) && ClaimMints(h, ctx, ids).Ok?
    ensures var events := ClaimMints(h, ctx, ids).value.events;
            && |events| == |ids|
            && forall k | 0 <= k < |ids| ::
                 var d := At(h.deposits, ids[k]);
                 events[k] == MintCompleted(d.user, ids[k], Owed(h, ctx, ids[k]), d.amount, MintPrice(h, ctx, ids[k]), d.priceId)
  {
    if ids != [] {
      var before, id := ids[..|ids| - 1], ids[|ids| - 1];
      assert ids == before + [id];
      ClaimMintsReport(h, ctx, before);
      BatchLeavesOthers(h, ctx, before, id);
      ClaimedMintsAreGone(h, ctx, ids);
      OneMintReports(ClaimMints(h, ctx, before).value.hub, ctx, id);
    }
  }

  lemma OneMintReports(h: State, ctx: Context, id: Id)
    requires h.multiplier > 0 && ClaimMintOne(h, ctx, id).Ok?
    ensures var d := At(h.deposits, id);
            ClaimMintOne(h, ctx, id).value.events
            == [MintCompleted(d.user, id, Owed(h, ctx, id), d.amount, MintPrice(h, ctx, id), d.priceId)]
  {
    MintAmountIsFloor(h.multiplier, At(h.deposits, id).amount, MintPrice(h, ctx, id));
  }
}
