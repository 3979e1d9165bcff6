/** What each entry point of the hub does with its arguments: when it is accepted, and the
    whole state and events it leaves. Claims and the conditions on tokens are in
    HubAcceptance and HubBatches. */
module HubOperations {
  import opened Outcomes
  import opened MapSums
  import opened HubLedger
  import opened Hub
  import Compounding
  import FixedPoint
  import opened HubAcceptance
  import Token

  // ------------------------------------------------------------- deployment

  /** A deployment succeeds exactly with real addresses and collateral of no more decimals
      than the fund token (whose difference fits a word), and starts with empty books,
      counters at one, the given minimums (redemptions' for off-chain too), no fees, and
      nothing paused. */
  lemma InitExactly(self: Address, collateralAddress: Address, rwaAddress: Address, collateralDecimals: nat, rwaDecimals: nat,
                    assetSender: Address, feeRecipient: Address, minDeposit: nat, minRedemption: nat,
                    collateral: Token.Ledger, rwa: Token.Ledger)
    ensures var r := Init(self, collateralAddress, rwaAddress, collateralDecimals, rwaDecimals, assetSender, feeRecipient,
                          minDeposit, minRedemption, collateral, rwa);
            && (r.Ok? <==>
                  && collateralAddress != ZERO_ADDRESS && rwaAddress != ZERO_ADDRESS
                  && assetSender != ZERO_ADDRESS && feeRecipient != ZERO_ADDRESS
                  && collateralDecimals <= rwaDecimals
                  && Compounding.Pow(10, rwaDecimals - collateralDecimals) <= MAX_UINT256)
            && (r.Ok? ==>
                  var h := r.value;
                  && h.self == self && h.multiplier == Compounding.Pow(10, rwaDecimals - collateralDecimals)
                  && h.deposits == map[] && h.redemptions == map[] && h.claimableAt == map[]
                  && h.subscriptionCounter == 1 && h.redemptionCounter == 1
                  && h.minimumDepositAmount == minDeposit && h.minimumRedemptionAmount == minRedemption
                  && h.minimumOffChainRedemptionAmount == minRedemption
                  && h.mintFee == 0 && h.redemptionFee == 0
                  && !h.subscriptionPaused && !h.redemptionPaused && !h.offChainRedemptionPaused
                  && h.assetSender == assetSender && h.feeRecipient == feeRecipient
                  && h.collateral == collateral && h.rwa == rwa)
            && (r.Revert? ==>
                  r.error == if collateralAddress == ZERO_ADDRESS || rwaAddress == ZERO_ADDRESS
                                || assetSender == ZERO_ADDRESS || feeRecipient == ZERO_ADDRESS
                             then InvalidAddress else Panic)
  {
  }

  // ------------------------------------------------------------- redemption requests

  /** `amount` of the sender's fund tokens, and of its allowance to the hub, are gone. */
  ghost predicate Burned(h: State, rwa': Token.Ledger, sender: Address, amount: nat) {
    && rwa'.supply == h.rwa.supply - amount
    && (forall account: Address ::
          Token.Balance(rwa', account) == Token.Balance(h.rwa, account) - (if account == sender then amount else 0))
    && var left := Token.LeftToSpend(h.rwa, sender, h.self, amount);
       left >= 0 && Token.OnlyAllowance(h.rwa, rwa', sender, h.self, left)
  }

  lemma BurnIsExact(h: State, ctx: Context, amount: nat)
    requires Token.Valid(h.rwa) && Token.BurnFrom(h.rwa, ctx.fundGate, h.self, ctx.sender, amount).Ok?
    ensures Burned(h, Token.BurnFrom(h.rwa, ctx.fundGate, h.self, ctx.sender, amount).value, ctx.sender, amount)
  {
    Token.BurnFromExactly(h.rwa, ctx.fundGate, h.self, ctx.sender, amount);
  }

  /** An on-chain request burns exactly the amount asked, records exactly that amount for
      the sender, without a price, under the next id, and changes nothing else. */
  lemma RequestRedemptionExactly(h: State, ctx: Context, amount: nat)
    requires Token.Valid(h.rwa) && RequestRedemption(h, ctx, amount).Ok?
    ensures var e := RequestRedemption(h, ctx, amount).value;
            && e.events == [RedemptionRequested(ctx.sender, h.redemptionCounter, amount)]
            && e.hub == h.(redemptionCounter := h.redemptionCounter + 1, redemptions := e.hub.redemptions, rwa := e.hub.rwa)
            && (forall id: Id :: At(e.hub.redemptions, id) ==
                  if id == h.redemptionCounter then Record(ctx.sender, amount, 0) else At(h.redemptions, id))
            && Burned(h, e.hub.rwa, ctx.sender, amount)
  {
    BurnIsExact(h, ctx, amount);
  }

  /** An off-chain request does the same without a record, and reports the destination. */
  lemma RequestOffchainExactly(h: State, ctx: Context, amount: nat, destination: nat)
    requires Token.Valid(h.rwa) && RequestRedemptionServicedOffchain(h, ctx, amount, destination).Ok?
    ensures var e := RequestRedemptionServicedOffchain(h, ctx, amount, destination).value;
            && e.events == [RedemptionRequestedServicedOffChain(ctx.sender, h.redemptionCounter, amount, destination)]
            && e.hub == h.(redemptionCounter := h.redemptionCounter + 1, rwa := e.hub.rwa)
            && Burned(h, e.hub.rwa, ctx.sender, amount)
  {
    BurnIsExact(h, ctx, amount);
  }

  // ------------------------------------------------------------- proofs

  /** A proof is accepted exactly from a relayer, for an unrestricted user, at a hash no
      user has; it records the user and the amount, and changes nothing else. */
  lemma AddProofExactly(h: State, ctx: Context, txHash: Id, user: Address, afterFee: nat, feeAmount: nat, timestamp: nat)
    ensures var r := AddProof(h, ctx, txHash, user, afterFee, feeAmount, timestamp);
            && (r.Ok? <==> Relayer in ctx.roles && Unrestricted(ctx, user) && At(h.deposits, txHash).user == ZERO_ADDRESS)
            && (r.Ok? ==>
                  && r.value.events == [DepositProofAdded(txHash, user, afterFee, feeAmount, timestamp)]
                  && r.value.hub == h.(deposits := r.value.hub.deposits)
                  && forall id: Id :: At(r.value.hub.deposits, id) ==
                       if id == txHash then Record(user, afterFee, 0) else At(h.deposits, id))
  {
  }

  // ------------------------------------------------------------- price ids

  /** The price id an id ends up with: the one of its last occurrence in the batch. */
  function FinalPrice(was: nat, ids: seq<Id>, priceIds: seq<nat>, id: Id): nat
    requires |ids| == |priceIds|
  {
    if ids == [] then was
    else if ids[|ids| - 1] == id then priceIds[|ids| - 1]
    else FinalPrice(was, ids[..|ids| - 1], priceIds[..|ids| - 1], id)
  }

  lemma {:induction false} FinalPriceIs(was: nat, ids: seq<Id>, priceIds: seq<nat>, id: Id)
    requires |ids| == |priceIds|
    ensures id !in ids ==> FinalPrice(was, ids, priceIds, id) == was
    ensures forall k | 0 <= k < |ids| && ids[k] == id && (forall j | k < j < |ids| :: ids[j] != id) ::
              FinalPrice(was, ids, priceIds, id) == priceIds[k]
  {
    if ids != [] && ids[|ids| - 1] != id {
      var before, prices := ids[..|ids| - 1], priceIds[..|ids| - 1];
      FinalPriceIs(was, before, prices, id);
      assert forall k | 0 <= k < |before| :: before[k] == ids[k] && prices[k] == priceIds[k];
    }
  }

  /** Every record of a batch is there without a price id at its turn: none at the start,
      and none given by an earlier turn of the same batch. */
  ghost predicate Assignable(m: map<Id, Record>, ids: seq<Id>, priceIds: seq<nat>, needUser: bool)
    requires |ids| == |priceIds|
  {
    forall k | 0 <= k < |ids| ::
      && (needUser ==> At(m, ids[k]).user != ZERO_ADDRESS)
      && At(m, ids[k]).priceId == 0
      && forall j | 0 <= j < k && ids[j] == ids[k] :: priceIds[j] == 0
  }

  /** Only price ids changed, to the last ones given. */
  ghost predicate Assigned(m: map<Id, Record>, m': map<Id, Record>, ids: seq<Id>, priceIds: seq<nat>)
    requires |ids| == |priceIds|
  {
    forall id: Id :: At(m', id) == At(m, id).(priceId := FinalPrice(At(m, id).priceId, ids, priceIds, id))
  }

  lemma AssignedMeans(m: map<Id, Record>, m': map<Id, Record>, ids: seq<Id>, priceIds: seq<nat>)
    requires |ids| == |priceIds| && Assigned(m, m', ids, priceIds)
    ensures forall id: Id | id !in ids :: At(m', id) == At(m, id)
    ensures forall k | 0 <= k < |ids| && (forall j | k < j < |ids| :: ids[j] != ids[k]) ::
              At(m', ids[k]) == At(m, ids[k]).(priceId := priceIds[k])
  {
    forall id: Id | id !in ids ensures At(m', id) == At(m, id) {
      FinalPriceIs(At(m, id).priceId, ids, priceIds, id);
    }
    forall k | 0 <= k < |ids| && (forall j | k < j < |ids| :: ids[j] != ids[k])
      ensures At(m', ids[k]) == At(m, ids[k]).(priceId := priceIds[k])
    {
      FinalPriceIs(At(m, ids[k]).priceId, ids, priceIds, ids[k]);
    }
  }

  /** What the last turn of an otherwise assignable batch finds. */
  lemma {:induction false} FinalPriceZero(m: map<Id, Record>, ids: seq<Id>, priceIds: seq<nat>, needUser: bool, id: Id)
    requires |ids| == |priceIds| && Assignable(m, ids, priceIds, needUser)
    ensures FinalPrice(At(m, id).priceId, ids, priceIds, id) == 0
            <==> At(m, id).priceId == 0 && forall j | 0 <= j < |ids| && ids[j] == id :: priceIds[j] == 0
  {
    if ids != [] {
      var before, prices := ids[..|ids| - 1], priceIds[..|ids| - 1];
      assert forall k | 0 <= k < |before| :: before[k] == ids[k] && prices[k] == priceIds[k];
      FinalPriceZero(m, before, prices, needUser, id);
    }
  }

  lemma AssignableAndOneMore(m: map<Id, Record>, ids: seq<Id>, priceIds: seq<nat>, needUser: bool)
    requires |ids| == |priceIds| && ids != []
    ensures var last := |ids| - 1;
            Assignable(m, ids, priceIds, needUser) <==>
            && Assignable(m, ids[..last], priceIds[..last], needUser)
            && (needUser ==> At(m, ids[last]).user != ZERO_ADDRESS)
            && FinalPrice(At(m, ids[last]).priceId, ids[..last], priceIds[..last], ids[last]) == 0
  {
    var before, prices := ids[..|ids| - 1], priceIds[..|ids| - 1];
    assert forall k | 0 <= k < |before| :: before[k] == ids[k] && prices[k] == priceIds[k];
    if Assignable(m, before, prices, needUser) {
      FinalPriceZero(m, before, prices, needUser, ids[|ids| - 1]);
    }
  }

  /** One turn on each side. */
  lemma DepositTurn(h: State, id: Id, priceId: nat)
    ensures var r, d := SetDepositPrice(h, id, priceId), At(h.deposits, id);
            && (r.Ok? <==> d.user != ZERO_ADDRESS && d.priceId == 0)
            && (r.Revert? ==> r.error == if d.user == ZERO_ADDRESS then DepositorNull else PriceIdAlreadySet)
            && (r.Ok? ==>
                  && r.value.events == [PriceIdSetForDeposit(id, priceId)]
                  && r.value.hub == h.(deposits := r.value.hub.deposits)
                  && forall k: Id :: At(r.value.hub.deposits, k) == if k == id then d.(priceId := priceId) else At(h.deposits, k))
  {
  }

  lemma RedemptionTurn(h: State, id: Id, priceId: nat)
    ensures var r, d := SetRedemptionPrice(h, id, priceId), At(h.redemptions, id);
            && (r.Ok? <==> d.priceId == 0)
            && (r.Revert? ==> r.error == PriceIdAlreadySet)
            && (r.Ok? ==>
                  && r.value.events == [PriceIdSetForRedemption(id, priceId)]
                  && r.value.hub == h.(redemptions := r.value.hub.redemptions)
                  && forall k: Id ::
                       At(r.value.hub.redemptions, k) == if k == id then d.(priceId := priceId) else At(h.redemptions, k))
  {
  }

  lemma AssignOneMore(m: map<Id, Record>, m1: map<Id, Record>, m2: map<Id, Record>, ids: seq<Id>, priceIds: seq<nat>)
    requires |ids| == |priceIds| && ids != []
    requires Assigned(m, m1, ids[..|ids| - 1], priceIds[..|ids| - 1])
    requires forall k: Id :: At(m2, k) ==
               if k == ids[|ids| - 1] then At(m1, k).(priceId := priceIds[|ids| - 1]) else At(m1, k)
    ensures Assigned(m, m2, ids, priceIds)
  {
  }

  lemma {:induction false} DepositPricesReport(h: State, ids: seq<Id>, priceIds: seq<nat>)
    requires |ids| == |priceIds| && SetDepositPrices(h, ids, priceIds).Ok?
    ensures var events := SetDepositPrices(h, ids, priceIds).value.events;
            |events| == |ids| && forall k | 0 <= k < |ids| :: events[k] == PriceIdSetForDeposit(ids[k], priceIds[k])
  {
    if ids != [] {
      var last := |ids| - 1;
      DepositPricesReport(h, ids[..last], priceIds[..last]);
    }
  }

  lemma {:induction false} DepositPricesExactly(h: State, ids: seq<Id>, priceIds: seq<nat>)
    requires |ids| == |priceIds|
    ensures var r := SetDepositPrices(h, ids, priceIds);
            && (r.Ok? <==> Assignable(h.deposits, ids, priceIds, true))
            && (r.Ok? ==>
                  && Assigned(h.deposits, r.value.hub.deposits, ids, priceIds)
                  && r.value.hub == h.(deposits := r.value.hub.deposits))
  {
    if ids != [] {
      var last := |ids| - 1;
      DepositPricesExactly(h, ids[..last], priceIds[..last]);
      AssignableAndOneMore(h.deposits, ids, priceIds, true);
      var before := SetDepositPrices(h, ids[..last], priceIds[..last]);
      if before.Ok? {
        DepositTurn(before.value.hub, ids[last], priceIds[last]);
        var one := SetDepositPrice(before.value.hub, ids[last], priceIds[last]);
        if one.Ok? {
          AssignOneMore(h.deposits, before.value.hub.deposits, one.value.hub.deposits, ids, priceIds);
        }
      }
    }
  }

  lemma {:induction false} RedemptionPricesReport(h: State, ids: seq<Id>, priceIds: seq<nat>)
    requires |ids| == |priceIds| && SetRedemptionPrices(h, ids, priceIds).Ok?
    ensures var events := SetRedemptionPrices(h, ids, priceIds).value.events;
            |events| == |ids| && forall k | 0 <= k < |ids| :: events[k] == PriceIdSetForRedemption(ids[k], priceIds[k])
  {
    if ids != [] {
      var last := |ids| - 1;
      RedemptionPricesReport(h, ids[..last], priceIds[..last]);
    }
  }

  lemma {:induction false} RedemptionPricesExactly(h: State, ids: seq<Id>, priceIds: seq<nat>)
    requires |ids| == |priceIds|
    ensures var r := SetRedemptionPrices(h, ids, priceIds);
            && (r.Ok? <==> Assignable(h.redemptions, ids, priceIds, false))
            && (r.Ok? ==>
                  && Assigned(h.redemptions, r.value.hub.redemptions, ids, priceIds)
                  && r.value.hub == h.(redemptions := r.value.hub.redemptions))
  {
    if ids != [] {
      var last := |ids| - 1;
      RedemptionPricesExactly(h, ids[..last], priceIds[..last]);
      AssignableAndOneMore(h.redemptions, ids, priceIds, false);
      var before := SetRedemptionPrices(h, ids[..last], priceIds[..last]);
      if before.Ok? {
        RedemptionTurn(before.value.hub, ids[last], priceIds[last]);
        var one := SetRedemptionPrice(before.value.hub, ids[last], priceIds[last]);
        if one.Ok? {
          AssignOneMore(h.redemptions, before.value.hub.redemptions, one.value.hub.redemptions, ids, priceIds);
        }
      }
    }
  }

  /** setPriceIdForDeposits succeeds exactly for the price-id setter, with lists of equal
      length, when every deposit has a user and no price id at its turn. Then each listed
      deposit has the price id last given for it and is otherwise as it was; no other
      deposit and nothing else changed; and each assignment is reported, in order. */
  lemma SetPriceIdForDepositsExactly(h: State, ctx: Context, ids: seq<Id>, priceIds: seq<nat>)
    ensures var r := SetPriceIdForDeposits(h, ctx, ids, priceIds);
            && (r.Ok? <==> PriceIdSetter in ctx.roles && |ids| == |priceIds| && Assignable(h.deposits, ids, priceIds, true))
            && (r.Ok? ==>
                  var m := r.value.hub.deposits;
                  && (forall k | 0 <= k < |ids| && (forall j | k < j < |ids| :: ids[j] != ids[k]) ::
                        At(m, ids[k]) == At(h.deposits, ids[k]).(priceId := priceIds[k]))
                  && (forall id: Id | id !in ids :: At(m, id) == At(h.deposits, id))
                  && r.value.hub == h.(deposits := m) && |r.value.events| == |ids|
                  && forall k | 0 <= k < |ids| :: r.value.events[k] == PriceIdSetForDeposit(ids[k], priceIds[k]))
  {
    if |ids| == |priceIds| {
      DepositPricesExactly(h, ids, priceIds);
      if SetDepositPrices(h, ids, priceIds).Ok? {
        DepositPricesReport(h, ids, priceIds);
        AssignedMeans(h.deposits, SetDepositPrices(h, ids, priceIds).value.hub.deposits, ids, priceIds);
      }
    }
  }

  /** setPriceIdForRedemptions likewise, for ids that need not have a record yet. */
  lemma SetPriceIdForRedemptionsExactly(h: State, ctx: Context, ids: seq<Id>, priceIds: seq<nat>)
    ensures var r := SetPriceIdForRedemptions(h, ctx, ids, priceIds);
            && (r.Ok? <==> PriceIdSetter in ctx.roles && |ids| == |priceIds| && Assignable(h.redemptions, ids, priceIds, false))
            && (r.Ok? ==>
                  var m := r.value.hub.redemptions;
                  && (forall k | 0 <= k < |ids| && (forall j | k < j < |ids| :: ids[j] != ids[k]) ::
                        At(m, ids[k]) == At(h.redemptions, ids[k]).(priceId := priceIds[k]))
                  && (forall id: Id | id !in ids :: At(m, id) == At(h.redemptions, id))
                  && r.value.hub == h.(redemptions := m) && |r.value.events| == |ids|
                  && forall k | 0 <= k < |ids| :: r.value.events[k] == PriceIdSetForRedemption(ids[k], priceIds[k]))
  {
    if |ids| == |priceIds| {
      RedemptionPricesExactly(h, ids, priceIds);
      if SetRedemptionPrices(h, ids, priceIds).Ok? {
        RedemptionPricesReport(h, ids, priceIds);
        AssignedMeans(h.redemptions, SetRedemptionPrices(h, ids, priceIds).value.hub.redemptions, ids, priceIds);
      }
    }
  }

  // ------------------------------------------------------------- claim times

  lemma {:induction false} TimestampsExactly(h: State, claimTimestamp: nat, ids: seq<Id>)
    ensures var e := SetTimestamps(h, claimTimestamp, ids);
            && e.hub == h.(claimableAt := e.hub.claimableAt)
            && (forall id: Id :: Get(e.hub.claimableAt, id) == if id in ids then claimTimestamp else Get(h.claimableAt, id))
            && |e.events| == |ids|
            && forall k | 0 <= k < |ids| :: e.events[k] == ClaimableTimestampSet(claimTimestamp, ids[k])
  {
    if ids != [] {
      TimestampsExactly(h, claimTimestamp, ids[..|ids| - 1]);
      assert ids == ids[..|ids| - 1] + [ids[|ids| - 1]];
    }
  }

  /** setClaimableTimestamp succeeds exactly for the timestamp setter and a time that is
      not past; every listed id gets that time, and nothing else changes. */
  lemma SetClaimableTimestampExactly(h: State, ctx: Context, claimTimestamp: nat, ids: seq<Id>)
    ensures var r := SetClaimableTimestamp(h, ctx, claimTimestamp, ids);
            && (r.Ok? <==> TimestampSetter in ctx.roles && claimTimestamp >= ctx.now)
            && (r.Ok? ==>
                  && r.value.hub == h.(claimableAt := r.value.hub.claimableAt)
                  && (forall id: Id ::
                        Get(r.value.hub.claimableAt, id) == if id in ids then claimTimestamp else Get(h.claimableAt, id))
                  && |r.value.events| == |ids|
                  && forall k | 0 <= k < |ids| :: r.value.events[k] == ClaimableTimestampSet(claimTimestamp, ids[k]))
  {
    TimestampsExactly(h, claimTimestamp, ids);
  }

  // ------------------------------------------------------------- the manager's powers

  /** Overwriting needs the manager and an unrestricted new user; it puts exactly the
      given record there, whatever was there before, and reports both. */
  lemma OverwriteDepositorExactly(h: State, ctx: Context, depositId: Id, record: Record)
    ensures var r := OverwriteDepositor(h, ctx, depositId, record);
            && (r.Ok? <==> ManagerAdmin in ctx.roles && Unrestricted(ctx, record.user))
            && (r.Ok? ==>
                  && r.value.hub == h.(deposits := r.value.hub.deposits)
                  && (forall id: Id :: At(r.value.hub.deposits, id) == if id == depositId then record else At(h.deposits, id))
                  && r.value.events == [DepositorOverwritten(depositId, At(h.deposits, depositId), record)])
  {
  }

  lemma OverwriteRedeemerExactly(h: State, ctx: Context, redemptionId: Id, record: Record)
    ensures var r := OverwriteRedeemer(h, ctx, redemptionId, record);
            && (r.Ok? <==> ManagerAdmin in ctx.roles && Unrestricted(ctx, record.user))
            && (r.Ok? ==>
                  && r.value.hub == h.(redemptions := r.value.hub.redemptions)
                  && (forall id: Id :: At(r.value.hub.redemptions, id) == if id == redemptionId then record else At(h.redemptions, id))
                  && r.value.events == [RedeemerOverwritten(redemptionId, At(h.redemptions, redemptionId), record)])
  {
  }

  /** Who may make a setting, and which values are allowed. */
  predicate Settable(ctx: Context, setting: Setting) {
    match setting
    case MintFee(bps) => ManagerAdmin in ctx.roles && bps <= 10_000
    case RedemptionFee(bps) => ManagerAdmin in ctx.roles && bps <= 10_000
    case MinimumDeposit(amount) => ManagerAdmin in ctx.roles && amount >= 10_000
    case MinimumRedemption(amount) => ManagerAdmin in ctx.roles && amount >= 10_000
    case PauseSubscription => PauserAdmin in ctx.roles
    case PauseRedemption => PauserAdmin in ctx.roles
    case PauseOffChainRedemption => PauserAdmin in ctx.roles
    case _ => ManagerAdmin in ctx.roles
  }

  /** Every setter is accepted exactly so, and then this setting, and no other part of the
      hub, has the new value. */
  lemma ConfigureExactly(h: State, ctx: Context, setting: Setting)
    ensures Configure(h, ctx, setting).Ok? <==> Settable(ctx, setting)
    ensures Configure(h, ctx, setting).Ok? ==>
              var h', now := Configure(h, ctx, setting).value, setting;
              && h'.mintFee == (if now.MintFee? then now.bps else h.mintFee)
              && h'.redemptionFee == (if now.RedemptionFee? then now.bps else h.redemptionFee)
              && h'.minimumDepositAmount == (if now.MinimumDeposit? then now.amount else h.minimumDepositAmount)
              && h'.minimumRedemptionAmount == (if now.MinimumRedemption? then now.amount else h.minimumRedemptionAmount)
              && h'.minimumOffChainRedemptionAmount
                 == (if now.MinimumOffChainRedemption? then now.amount else h.minimumOffChainRedemptionAmount)
              && h'.feeRecipient == (if now.FeeRecipient? then now.account else h.feeRecipient)
              && h'.assetSender == (if now.AssetSender? then now.account else h.assetSender)
              && h'.subscriptionPaused == (now.PauseSubscription? || (h.subscriptionPaused && !now.UnpauseSubscription?))
              && h'.redemptionPaused == (now.PauseRedemption? || (h.redemptionPaused && !now.UnpauseRedemption?))
              && h'.offChainRedemptionPaused
                 == (now.PauseOffChainRedemption? || (h.offChainRedemptionPaused && !now.UnpauseOffChainRedemption?))
              && SameRecords(h, h')
    ensures Configure(h, ctx, setting).Revert? ==>
              var pausing := setting.PauseSubscription? || setting.PauseRedemption? || setting.PauseOffChainRedemption?;
              Configure(h, ctx, setting).error ==
              if (if pausing then PauserAdmin else ManagerAdmin) !in ctx.roles then MissingRole
              else if setting.MintFee? || setting.RedemptionFee? then FeeTooLarge else AmountTooSmall
  {
  }

  /** Everything that is not a setting. */
  predicate SameRecords(h: State, h': State) {
    && h'.self == h.self && h'.multiplier == h.multiplier
    && h'.deposits == h.deposits && h'.redemptions == h.redemptions && h'.claimableAt == h.claimableAt
    && h'.subscriptionCounter == h.subscriptionCounter && h'.redemptionCounter == h.redemptionCounter
    && h'.collateral == h.collateral && h'.rwa == h.rwa
  }

  // ------------------------------------------------------------- why calls are rejected

  function RestrictionError(ctx: Context, account: Address): Error {
    if account in ctx.blocked then BlockedAccount else SanctionedAccount
  }

  lemma TransferRejectsWith(h: State, from: Address, to: Address, amount: nat)
    requires Pay(h, from, to, amount).Revert?
    ensures Pay(h, from, to, amount).error in {TransferToOrFromZero, AllowanceTooSmall, BalanceTooSmall, Panic}
  {
  }

  lemma CollectRejectsWith(h: State, from: Address, fee: nat, afterFee: nat)
    requires Collect(h, from, fee, afterFee).Revert?
    ensures Collect(h, from, fee, afterFee).error in {TransferToOrFromZero, AllowanceTooSmall, BalanceTooSmall, Panic}
  {
    var paid := PayFee(h, from, fee);
    if paid.Revert? {
      TransferRejectsWith(h, from, h.feeRecipient, fee);
    } else {
      TransferRejectsWith(paid.value, from, ASSET_RECIPIENT, afterFee);
    }
  }

  /** Why a subscription's terms are refused: the first of these that applies. */
  lemma SubscriptionTermsRejectWith(h: State, ctx: Context, amount: nat)
    requires h.mintFee <= FixedPoint.BPS_DENOMINATOR && SubscriptionTerms(h, ctx, amount).Revert?
    ensures SubscriptionTerms(h, ctx, amount).error ==
            if h.subscriptionPaused then FeaturePaused
            else if !Unrestricted(ctx, ctx.sender) then RestrictionError(ctx, ctx.sender)
            else if amount < h.minimumDepositAmount then DepositTooSmall
            else Panic
  {
  }

  /** After its terms a subscription fails only for want of ids, or with its transfers. */
  lemma SubscriptionRejectsWith(h: State, ctx: Context, amount: nat)
    requires RequestSubscription(h, ctx, amount).Revert?
    ensures var terms, error := SubscriptionTerms(h, ctx, amount), RequestSubscription(h, ctx, amount).error;
            if terms.Revert? then error == terms.error
            else if h.subscriptionCounter >= MAX_UINT256 then error == Panic
            else error in {TransferToOrFromZero, AllowanceTooSmall, BalanceTooSmall, Panic}
  {
    var terms, id := SubscriptionTerms(h, ctx, amount), h.subscriptionCounter;
    if terms.Ok? && id < MAX_UINT256 {
      CollectRejectsWith(h.(subscriptionCounter := id + 1, deposits := Put(h.deposits, id, Record(ctx.sender, terms.value.1, 0))),
                         ctx.sender, terms.value.0, terms.value.1);
    }
  }

  lemma RedemptionRequestsRejectWith(h: State, ctx: Context, amount: nat, destination: nat)
    ensures var r := RequestRedemption(h, ctx, amount);
            if h.redemptionPaused then r == Revert(FeaturePaused)
            else if amount < h.minimumRedemptionAmount then r == Revert(RedemptionTooSmall)
            else if h.redemptionCounter >= MAX_UINT256 then r == Revert(Panic)
            else r.Revert? ==> Token.BurnFrom(h.rwa, ctx.fundGate, h.self, ctx.sender, amount) == Revert(r.error)
    ensures var r := RequestRedemptionServicedOffchain(h, ctx, amount, destination);
            if h.offChainRedemptionPaused then r == Revert(FeaturePaused)
            else if amount < h.minimumOffChainRedemptionAmount then r == Revert(RedemptionTooSmall)
            else if h.redemptionCounter >= MAX_UINT256 then r == Revert(Panic)
            else r.Revert? ==> Token.BurnFrom(h.rwa, ctx.fundGate, h.self, ctx.sender, amount) == Revert(r.error)
  {
  }

  lemma MintClaimRejectsWith(h: State, ctx: Context, id: Id)
    requires h.multiplier > 0
    ensures var r, d := ClaimMintOne(h, ctx, id), At(h.deposits, id);
            if Get(h.claimableAt, id) == 0 then r == Revert(ClaimableTimestampNotSet)
            else if Get(h.claimableAt, id) > ctx.now then r == Revert(MintNotYetClaimable)
            else if d.priceId == 0 then r == Revert(PriceIdNotSet)
            else if MintPrice(h, ctx, id) == 0 || d.amount * FixedPoint.Scale(h.multiplier) > MAX_UINT256
              then r == Revert(Panic)
            else if !ctx.hubIsMinter then r == Revert(MissingRole)
            else r.Revert? ==> Token.Mint(h.rwa, ctx.fundGate, h.self, d.user, Owed(h, ctx, id)) == Revert(r.error)
  {
    FixedPoint.MintAmountIsFloor(h.multiplier, At(h.deposits, id).amount, MintPrice(h, ctx, id));
    MintOverflowPanics(h.multiplier, At(h.deposits, id).amount, MintPrice(h, ctx, id));
  }

  lemma MintOverflowPanics(multiplier: nat, amount: nat, price: nat)
    ensures FixedPoint.MintAmountForPrice(multiplier, amount, price).Revert? ==>
              FixedPoint.MintAmountForPrice(multiplier, amount, price).error == Panic
  {
  }

  lemma RedemptionClaimRejectsWith(h: State, ctx: Context, id: Id)
    requires h.multiplier > 0 && h.redemptionFee <= FixedPoint.BPS_DENOMINATOR
    ensures var r, d := RedemptionTerms(h, ctx, id), At(h.redemptions, id);
            if !Unrestricted(ctx, d.user) then r == Revert(RestrictionError(ctx, d.user))
            else if d.priceId == 0 then r == Revert(PriceIdNotSet)
            else r.Revert? ==> r.error == Panic
  {
  }

  lemma ClaimsRejectWhenPaused(h: State, ctx: Context, ids: seq<Id>)
    ensures h.subscriptionPaused ==> ClaimMint(h, ctx, ids) == Revert(FeaturePaused)
    ensures h.redemptionPaused ==> ClaimRedemption(h, ctx, ids) == Revert(FeaturePaused)
  {
  }

  lemma OperatorCallsRejectWith(h: State, ctx: Context, id: Id, record: Record, amount: nat, time: nat, ids: seq<Id>)
    ensures var r := AddProof(h, ctx, id, record.user, amount, amount, time);
            r.Revert? ==>
              r.error == if Relayer !in ctx.roles then MissingRole
                         else if !Unrestricted(ctx, record.user) then RestrictionError(ctx, record.user)
                         else DepositProofAlreadyExists
    ensures var r := OverwriteDepositor(h, ctx, id, record);
            r.Revert? ==>
              r.error == if ManagerAdmin !in ctx.roles then MissingRole else RestrictionError(ctx, record.user)
    ensures var r := OverwriteRedeemer(h, ctx, id, record);
            r.Revert? ==>
              r.error == if ManagerAdmin !in ctx.roles then MissingRole else RestrictionError(ctx, record.user)
    ensures var r := SetClaimableTimestamp(h, ctx, time, ids);
            r.Revert? ==> r.error == if TimestampSetter !in ctx.roles then MissingRole else ClaimableTimestampInPast
  {
  }

  lemma PriceIdsRejectWith(h: State, ctx: Context, ids: seq<Id>, priceIds: seq<nat>)
    requires PriceIdSetter !in ctx.roles || |ids| != |priceIds|
    ensures var error := if PriceIdSetter !in ctx.roles then MissingRole else ArraySizeMismatch;
            SetPriceIdForDeposits(h, ctx, ids, priceIds) == SetPriceIdForRedemptions(h, ctx, ids, priceIds) == Revert(error)
  {
  }
}
