/** The hub as the contract it is: fields updated in place, loops over id arrays, and a
    rollback wherever a call reverts halfway. Every entry point meets the function of
    the same name in module Hub, whose runs HubRuns and HubBatches are about. */
module HubContract {
  import opened Outcomes
  import opened FixedPoint
  import opened MapSums
  import opened HubLedger
  import opened Hub
  import Compounding
  import Token

  // ------------------------------------------------------------- a reverting turn reverts the batch

  lemma {:induction false} ClaimMintsStop(h: State, ctx: Context, ids: seq<Id>, i: nat)
    requires i <= |ids| && ClaimMints(h, ctx, ids[..i]).Revert?
    ensures ClaimMints(h, ctx, ids) == ClaimMints(h, ctx, ids[..i])
  {
    if i < |ids| {
      assert ids[..|ids| - 1][..i] == ids[..i];
      ClaimMintsStop(h, ctx, ids[..|ids| - 1], i);
    } else {
      assert ids[..i] == ids;
    }
  }

  lemma {:induction false} ClaimRedemptionsStop(h: State, ctx: Context, ids: seq<Id>, i: nat)
    requires i <= |ids| && ClaimRedemptions(h, ctx, ids[..i]).Revert?
    ensures ClaimRedemptions(h, ctx, ids) == ClaimRedemptions(h, ctx, ids[..i])
  {
    if i < |ids| {
      assert ids[..|ids| - 1][..i] == ids[..i];
      ClaimRedemptionsStop(h, ctx, ids[..|ids| - 1], i);
    } else {
      assert ids[..i] == ids;
    }
  }

  lemma {:induction false} SetDepositPricesStop(h: State, ids: seq<Id>, priceIds: seq<nat>, i: nat)
    requires i <= |ids| == |priceIds| && SetDepositPrices(h, ids[..i], priceIds[..i]).Revert?
    ensures SetDepositPrices(h, ids, priceIds) == SetDepositPrices(h, ids[..i], priceIds[..i])
  {
    if i < |ids| {
      assert ids[..|ids| - 1][..i] == ids[..i] && priceIds[..|ids| - 1][..i] == priceIds[..i];
      SetDepositPricesStop(h, ids[..|ids| - 1], priceIds[..|ids| - 1], i);
    } else {
      assert ids[..i] == ids && priceIds[..i] == priceIds;
    }
  }

  lemma {:induction false} SetRedemptionPricesStop(h: State, ids: seq<Id>, priceIds: seq<nat>, i: nat)
    requires i <= |ids| == |priceIds| && SetRedemptionPrices(h, ids[..i], priceIds[..i]).Revert?
    ensures SetRedemptionPrices(h, ids, priceIds) == SetRedemptionPrices(h, ids[..i], priceIds[..i])
  {
    if i < |ids| {
      assert ids[..|ids| - 1][..i] == ids[..i] && priceIds[..|ids| - 1][..i] == priceIds[..i];
      SetRedemptionPricesStop(h, ids[..|ids| - 1], priceIds[..|ids| - 1], i);
    } else {
      assert ids[..i] == ids && priceIds[..i] == priceIds;
    }
  }

  /** One more successful turn of a mint batch. */
  lemma ClaimMintsNext(h: State, ctx: Context, ids: seq<Id>, i: nat)
    requires i < |ids| && ClaimMints(h, ctx, ids[..i]).Ok?
    ensures var before := ClaimMints(h, ctx, ids[..i]).value;
            match ClaimMintOne(before.hub, ctx, ids[i])
            case Ok(one) =>
              && ClaimMints(h, ctx, ids[..i + 1]) == Ok(Effect(one.hub, before.events + one.events))
              && Stamp(ctx.now, before.events + one.events) == Stamp(ctx.now, before.events) + Stamp(ctx.now, one.events)
            case Revert(e) => ClaimMints(h, ctx, ids) == Revert(e)
  {
    assert ids[..i + 1][..i] == ids[..i];
    if ClaimMints(h, ctx, ids[..i + 1]).Revert? {
      ClaimMintsStop(h, ctx, ids, i + 1);
    }
  }

  lemma SetDepositPricesNext(h: State, now: nat, ids: seq<Id>, priceIds: seq<nat>, i: nat)
    requires i < |ids| == |priceIds| && SetDepositPrices(h, ids[..i], priceIds[..i]).Ok?
    ensures var before := SetDepositPrices(h, ids[..i], priceIds[..i]).value;
            match SetDepositPrice(before.hub, ids[i], priceIds[i])
            case Ok(one) =>
              && SetDepositPrices(h, ids[..i + 1], priceIds[..i + 1]) == Ok(Effect(one.hub, before.events + one.events))
              && Stamp(now, before.events + one.events) == Stamp(now, before.events) + Stamp(now, one.events)
            case Revert(e) => SetDepositPrices(h, ids, priceIds) == Revert(e)
  {
    var more, morePrices := ids[..i + 1], priceIds[..i + 1];
    assert more[..i] == ids[..i] && morePrices[..i] == priceIds[..i];
    var one := SetDepositPrice(SetDepositPrices(h, ids[..i], priceIds[..i]).value.hub, ids[i], priceIds[i]);
    if one.Revert? {
      assert SetDepositPrices(h, more, morePrices) == Revert(one.error);
      SetDepositPricesStop(h, ids, priceIds, i + 1);
    } else {
      StampAppend(now, SetDepositPrices(h, ids[..i], priceIds[..i]).value.events, one.value.events);
    }
  }

  lemma SetRedemptionPricesNext(h: State, now: nat, ids: seq<Id>, priceIds: seq<nat>, i: nat)
    requires i < |ids| == |priceIds| && SetRedemptionPrices(h, ids[..i], priceIds[..i]).Ok?
    ensures var before := SetRedemptionPrices(h, ids[..i], priceIds[..i]).value;
            match SetRedemptionPrice(before.hub, ids[i], priceIds[i])
            case Ok(one) =>
              && SetRedemptionPrices(h, ids[..i + 1], priceIds[..i + 1]) == Ok(Effect(one.hub, before.events + one.events))
              && Stamp(now, before.events + one.events) == Stamp(now, before.events) + Stamp(now, one.events)
            case Revert(e) => SetRedemptionPrices(h, ids, priceIds) == Revert(e)
  {
    var more, morePrices := ids[..i + 1], priceIds[..i + 1];
    assert more[..i] == ids[..i] && morePrices[..i] == priceIds[..i];
    var one := SetRedemptionPrice(SetRedemptionPrices(h, ids[..i], priceIds[..i]).value.hub, ids[i], priceIds[i]);
    if one.Revert? {
      assert SetRedemptionPrices(h, more, morePrices) == Revert(one.error);
      SetRedemptionPricesStop(h, ids, priceIds, i + 1);
    } else {
      StampAppend(now, SetRedemptionPrices(h, ids[..i], priceIds[..i]).value.events, one.value.events);
    }
  }

  lemma StampAppend(now: nat, events: seq<Event>, more: seq<Event>)
    ensures Stamp(now, events + more) == Stamp(now, events) + Stamp(now, more)
  {
  }

  class USBSManager {
    const self: Address
    const multiplier: nat
    var deposits: map<Id, Record>
    var redemptions: map<Id, Record>
    var claimableAt: map<Id, nat>
    var subscriptionCounter: nat
    var redemptionCounter: nat
    var minimumDepositAmount: nat
    var minimumRedemptionAmount: nat
    var minimumOffChainRedemptionAmount: nat
    var mintFee: nat
    var redemptionFee: nat
    var subscriptionPaused: bool
    var redemptionPaused: bool
    var offChainRedemptionPaused: bool
    var assetSender: Address
    var feeRecipient: Address
    var collateral: Token.Ledger   // the two token contracts, by their state
    var rwa: Token.Ledger
    var log: seq<Entry>

    function Snapshot(): State
      reads this
    {
      State(self, multiplier, deposits, redemptions, claimableAt, subscriptionCounter, redemptionCounter,
            minimumDepositAmount, minimumRedemptionAmount, minimumOffChainRedemptionAmount, mintFee, redemptionFee,
            subscriptionPaused, redemptionPaused, offChainRedemptionPaused, assetSender, feeRecipient, collateral, rwa)
    }

    /** The call did what `spec` says: its effect and events, or nothing at all. */
    ghost predicate Did(spec: Result<Effect>, now: nat, before: State, logBefore: seq<Entry>, r: Result<()>)
      reads this
    {
      match spec
      case Ok(e) => r.Ok? && Snapshot() == e.hub && log == logBefore + Stamp(now, e.events)
      case Revert(error) => r == Revert(error) && Snapshot() == before && log == logBefore
    }

    /** As Did, for internal calls: a revert unwinds the whole transaction, so what an
        internal call leaves behind when it fails does not matter. */
    ghost predicate DidInside(spec: Result<Effect>, now: nat, logBefore: seq<Entry>, r: Result<()>)
      reads this
    {
      match spec
      case Ok(e) => r.Ok? && Snapshot() == e.hub && log == logBefore + Stamp(now, e.events)
      case Revert(error) => r == Revert(error)
    }

    /** A reverting deployment is a constructor that cannot be called. */
    constructor (self: Address, collateralAddress: Address, rwaAddress: Address, collateralDecimals: nat, rwaDecimals: nat,
                 assetSender: Address, feeRecipient: Address, minDeposit: nat, minRedemption: nat,
                 collateral: Token.Ledger, rwa: Token.Ledger)
      requires Init(self, collateralAddress, rwaAddress, collateralDecimals, rwaDecimals, assetSender, feeRecipient,
                    minDeposit, minRedemption, collateral, rwa).Ok?
      ensures Init(self, collateralAddress, rwaAddress, collateralDecimals, rwaDecimals, assetSender, feeRecipient,
                   minDeposit, minRedemption, collateral, rwa) == Ok(Snapshot())
      ensures log == []
    {
      this.self := self;
      this.multiplier := Compounding.Pow(10, rwaDecimals - collateralDecimals);
      this.collateral, this.rwa := collateral, rwa;
      this.assetSender, this.feeRecipient := assetSender, feeRecipient;
      minimumDepositAmount, minimumRedemptionAmount := minDeposit, minRedemption;
      minimumOffChainRedemptionAmount := minRedemption;
      deposits, redemptions, claimableAt := map[], map[], map[];
      subscriptionCounter, redemptionCounter := 1, 1;
      mintFee, redemptionFee := 0, 0;
      subscriptionPaused, redemptionPaused, offChainRedemptionPaused := false, false, false;
      log := [];
    }

    /** Undoes everything, as a revert does. */
    method Rollback(saved: State, savedLog: seq<Entry>)
      requires saved.self == self && saved.multiplier == multiplier
      modifies this
      ensures Snapshot() == saved && log == savedLog
    {
      RestoreSettings(saved);
      RestoreStorage(saved, savedLog);
    }

    method RestoreSettings(saved: State)
      modifies `minimumDepositAmount, `minimumRedemptionAmount, `minimumOffChainRedemptionAmount, `mintFee, `redemptionFee
      modifies `subscriptionPaused, `redemptionPaused, `offChainRedemptionPaused, `assetSender, `feeRecipient
      ensures minimumDepositAmount == saved.minimumDepositAmount && minimumRedemptionAmount == saved.minimumRedemptionAmount
      ensures minimumOffChainRedemptionAmount == saved.minimumOffChainRedemptionAmount
      ensures mintFee == saved.mintFee && redemptionFee == saved.redemptionFee
      ensures subscriptionPaused == saved.subscriptionPaused && redemptionPaused == saved.redemptionPaused
      ensures offChainRedemptionPaused == saved.offChainRedemptionPaused
      ensures assetSender == saved.assetSender && feeRecipient == saved.feeRecipient
    {
      minimumDepositAmount := saved.minimumDepositAmount;
      minimumRedemptionAmount := saved.minimumRedemptionAmount;
      minimumOffChainRedemptionAmount := saved.minimumOffChainRedemptionAmount;
      mintFee, redemptionFee := saved.mintFee, saved.redemptionFee;
      subscriptionPaused, redemptionPaused := saved.subscriptionPaused, saved.redemptionPaused;
      offChainRedemptionPaused := saved.offChainRedemptionPaused;
      assetSender, feeRecipient := saved.assetSender, saved.feeRecipient;
    }

    method RestoreStorage(saved: State, savedLog: seq<Entry>)
      modifies `deposits, `redemptions, `claimableAt, `subscriptionCounter, `redemptionCounter, `collateral, `rwa, `log
      ensures deposits == saved.deposits && redemptions == saved.redemptions && claimableAt == saved.claimableAt
      ensures subscriptionCounter == saved.subscriptionCounter && redemptionCounter == saved.redemptionCounter
      ensures collateral == saved.collateral && rwa == saved.rwa && log == savedLog
    {
      deposits, redemptions, claimableAt := saved.deposits, saved.redemptions, saved.claimableAt;
      subscriptionCounter, redemptionCounter := saved.subscriptionCounter, saved.redemptionCounter;
      collateral, rwa := saved.collateral, saved.rwa;
      log := savedLog;
    }

    method Emit(now: nat, e: Event)
      modifies `log
      ensures log == old(log) + Stamp(now, [e])
    {
      log := log + [Entry(now, e)];
    }

    /** collateral.safeTransferFrom, called by the hub. */
    method TransferCollateral(from: Address, to: Address, amount: nat) returns (r: Result<()>)
      modifies `collateral
      ensures match Token.TransferFrom(old(collateral), Token.Open, self, from, to, amount)
              case Ok(l) => r.Ok? && collateral == l
              case Revert(e) => r == Revert(e) && collateral == old(collateral)
    {
      var ledger :- Token.TransferFrom(collateral, Token.Open, self, from, to, amount);
      collateral := ledger;
      return Ok(());
    }

    /** The two transfers of a subscription: the fee, if any, and then the deposit. */
    method CollectSubscription(from: Address, fee: nat, depositAmountAfterFee: nat) returns (r: Result<()>)
      modifies `collateral
      ensures match Collect(old(Snapshot()), from, fee, depositAmountAfterFee)
              case Ok(h) => r.Ok? && Snapshot() == h
              case Revert(e) => r == Revert(e)
    {
      if fee > 0 {
        var _ :- TransferCollateral(from, feeRecipient, fee);
      }
      r := TransferCollateral(from, ASSET_RECIPIENT, depositAmountAfterFee);
    }

    /** The checks of a subscription, its fee, and what is left of the amount. */
    method QuoteSubscription(ctx: Context, amount: nat) returns (r: Result<(nat, nat)>)
      ensures r == SubscriptionTerms(Snapshot(), ctx, amount)
    {
      if subscriptionPaused {
        return Revert(FeaturePaused);
      }
      var _ :- CheckRestrictions(ctx, ctx.sender);
      if amount < minimumDepositAmount {
        return Revert(DepositTooSmall);
      }
      var feesInCollateral :- Fee(amount, mintFee);
      var depositAmountAfterFee :- CheckedSub(amount, feesInCollateral);
      return Ok((feesInCollateral, depositAmountAfterFee));
    }

    method RequestSubscription(ctx: Context, amount: nat) returns (r: Result<()>)
      modifies this
      ensures Did(Hub.RequestSubscription(old(Snapshot()), ctx, amount), ctx.now, old(Snapshot()), old(log), r)
    {
      var saved, savedLog := Snapshot(), log;
      var terms :- QuoteSubscription(ctx, amount);
      var feesInCollateral, depositAmountAfterFee := terms.0, terms.1;
      var depositId := subscriptionCounter;
      var next :- CheckedAdd(subscriptionCounter, 1);
      subscriptionCounter := next;
      deposits := Put(deposits, depositId, Record(ctx.sender, depositAmountAfterFee, 0));
      r := CollectSubscription(ctx.sender, feesInCollateral, depositAmountAfterFee);
      if r.Revert? {
        Rollback(saved, savedLog);
        return;
      }
      Emit(ctx.now, MintRequested(ctx.sender, depositId, amount, depositAmountAfterFee, feesInCollateral));
    }

    /** RWAHub._claimMint. */
    method ClaimMintBase(ctx: Context, depositId: Id) returns (r: Result<()>)
      modifies this
      ensures DidInside(Hub.ClaimMintBase(old(Snapshot()), ctx, depositId), ctx.now, old(log), r)
    {
      var depositor := At(deposits, depositId);
      if depositor.priceId == 0 {
        return Revert(PriceIdNotSet);
      }
      var price := Get(ctx.prices, depositor.priceId);
      var rwaOwed :- MintAmountForPrice(multiplier, depositor.amount, price);
      deposits := Put(deposits, depositId, EMPTY);
      if !ctx.hubIsMinter {
        return Revert(MissingRole);
      }
      var minted :- Token.Mint(rwa, ctx.fundGate, self, depositor.user, rwaOwed);
      rwa := minted;
      Emit(ctx.now, MintCompleted(depositor.user, depositId, rwaOwed, depositor.amount, price, depositor.priceId));
      return Ok(());
    }

    /** USBSManager._claimMint. */
    method ClaimMintOne(ctx: Context, depositId: Id) returns (r: Result<()>)
      modifies this
      ensures DidInside(Hub.ClaimMintOne(old(Snapshot()), ctx, depositId), ctx.now, old(log), r)
    {
      if Get(claimableAt, depositId) == 0 {
        return Revert(ClaimableTimestampNotSet);
      }
      if Get(claimableAt, depositId) > ctx.now {
        return Revert(MintNotYetClaimable);
      }
      r := ClaimMintBase(ctx, depositId);
      if r.Ok? {
        claimableAt := PutTime(claimableAt, depositId, 0);
      }
    }

    /** One turn of claimMint's loop, after those for depositIds[..i]. */
    method ClaimMintTurn(ctx: Context, depositIds: seq<Id>, i: nat, ghost saved: State, ghost savedLog: seq<Entry>)
      returns (r: Result<()>)
      requires i < |depositIds| && DidInside(ClaimMints(saved, ctx, depositIds[..i]), ctx.now, savedLog, Ok(()))
      modifies this
      ensures match r
              case Ok(_) => DidInside(ClaimMints(saved, ctx, depositIds[..i + 1]), ctx.now, savedLog, r)
              case Revert(e) => ClaimMints(saved, ctx, depositIds) == Revert(e)
    {
      ghost var done := ClaimMints(saved, ctx, depositIds[..i]).value;
      ghost var one := Hub.ClaimMintOne(done.hub, ctx, depositIds[i]);
      ClaimMintsNext(saved, ctx, depositIds, i);
      r := ClaimMintOne(ctx, depositIds[i]);
      assert r.Ok? ==> log == savedLog + Stamp(ctx.now, done.events) + Stamp(ctx.now, one.value.events);
    }

    method ClaimMint(ctx: Context, depositIds: seq<Id>) returns (r: Result<()>)
      modifies this
      ensures Did(Hub.ClaimMint(old(Snapshot()), ctx, depositIds), ctx.now, old(Snapshot()), old(log), r)
    {
      var saved, savedLog := Snapshot(), log;
      if subscriptionPaused {
        return Revert(FeaturePaused);
      }
      var depositsSize := |depositIds|;
      for i := 0 to depositsSize
        invariant DidInside(ClaimMints(saved, ctx, depositIds[..i]), ctx.now, savedLog, Ok(()))
      {
        r := ClaimMintTurn(ctx, depositIds, i, saved, savedLog);
        if r.Revert? {
          Rollback(saved, savedLog);
          return;
        }
      }
      assert depositIds[..depositsSize] == depositIds;
      return Ok(());
    }

    /** rwa.burnFrom, called by the hub for the sender's own tokens. */
    method BurnFromSender(ctx: Context, amount: nat) returns (r: Result<()>)
      modifies `rwa
      ensures match Token.BurnFrom(old(rwa), ctx.fundGate, self, ctx.sender, amount)
              case Ok(l) => r.Ok? && rwa == l
              case Revert(e) => r == Revert(e) && rwa == old(rwa)
    {
      var ledger :- Token.BurnFrom(rwa, ctx.fundGate, self, ctx.sender, amount);
      rwa := ledger;
      return Ok(());
    }

    method RequestRedemption(ctx: Context, amount: nat) returns (r: Result<()>)
      modifies this
      ensures Did(Hub.RequestRedemption(old(Snapshot()), ctx, amount), ctx.now, old(Snapshot()), old(log), r)
    {
      var saved, savedLog := Snapshot(), log;
      if redemptionPaused {
        return Revert(FeaturePaused);
      }
      if amount < minimumRedemptionAmount {
        return Revert(RedemptionTooSmall);
      }
      var redemptionId := redemptionCounter;
      var next :- CheckedAdd(redemptionCounter, 1);
      redemptionCounter := next;
      redemptions := Put(redemptions, redemptionId, Record(ctx.sender, amount, 0));
      r := BurnFromSender(ctx, amount);
      if r.Revert? {
        Rollback(saved, savedLog);
        return;
      }
      assert Snapshot() == saved.(redemptionCounter := next, redemptions := redemptions, rwa := rwa);
      Emit(ctx.now, RedemptionRequested(ctx.sender, redemptionId, amount));
    }

    method RequestRedemptionServicedOffchain(ctx: Context, amount: nat, destination: nat) returns (r: Result<()>)
      modifies this
      ensures Did(Hub.RequestRedemptionServicedOffchain(old(Snapshot()), ctx, amount, destination), ctx.now,
                  old(Snapshot()), old(log), r)
    {
      var saved, savedLog := Snapshot(), log;
      if offChainRedemptionPaused {
        return Revert(FeaturePaused);
      }
      if amount < minimumOffChainRedemptionAmount {
        return Revert(RedemptionTooSmall);
      }
      var redemptionId := redemptionCounter;
      var next :- CheckedAdd(redemptionCounter, 1);
      redemptionCounter := next;
      r := BurnFromSender(ctx, amount);
      if r.Revert? {
        Rollback(saved, savedLog);
        return;
      }
      Emit(ctx.now, RedemptionRequestedServicedOffChain(ctx.sender, redemptionId, amount, destination));
    }

    /** The checks and the arithmetic of one claim. */
    method QuoteRedemption(ctx: Context, redemptionId: Id) returns (r: Result<Terms>)
      ensures r == RedemptionTerms(Snapshot(), ctx, redemptionId)
    {
      var member := At(redemptions, redemptionId);
      var _ :- CheckRestrictions(ctx, member.user);
      if member.priceId == 0 {
        return Revert(PriceIdNotSet);
      }
      var price := Get(ctx.prices, member.priceId);
      var collateralDue :- RedemptionAmountForRwa(multiplier, member.amount, price);
      var fee :- Fee(collateralDue, redemptionFee);
      var collateralDuePostFees :- CheckedSub(collateralDue, fee);
      return Ok(Terms(member.user, collateralDuePostFees, fee,
                      RedemptionCompleted(member.user, redemptionId, member.amount, collateralDuePostFees, price)));
    }

    /** Deletes a redemption and pays for it. */
    method SettleRedemption(redemptionId: Id, user: Address, amount: nat) returns (r: Result<()>)
      modifies `redemptions, `collateral
      ensures match Pay(old(Snapshot()).(redemptions := Put(old(redemptions), redemptionId, EMPTY)), assetSender, user, amount)
              case Ok(h) => r.Ok? && Snapshot() == h
              case Revert(e) => r == Revert(e)
    {
      redemptions := Put(redemptions, redemptionId, EMPTY);
      r := TransferCollateral(assetSender, user, amount);
    }

    /** One turn of claimRedemption's loop; `fees` is what the loop has accumulated. */
    method ClaimRedemptionTurn(ctx: Context, redemptionId: Id, fees: nat, ghost soFar: seq<Event>)
      returns (r: Result<nat>, ghost emitted: Event)
      modifies this
      ensures match ClaimRedemptionOne(Redeeming(old(Snapshot()), fees, soFar), ctx, redemptionId)
              case Ok(next) =>
                && r == Ok(next.fees) && Snapshot() == next.hub
                && next.events == soFar + [emitted] && log == old(log) + Stamp(ctx.now, [emitted])
              case Revert(e) => r == Revert(e)
    {
      emitted := OtherEvent;
      var terms :- QuoteRedemption(ctx, redemptionId);
      emitted := terms.event;
      var total :- CheckedAdd(fees, terms.fee);
      var _ :- SettleRedemption(redemptionId, terms.user, terms.postFees);
      Emit(ctx.now, terms.event);
      r := Ok(total);
    }

    method ClaimRedemption(ctx: Context, redemptionIds: seq<Id>) returns (r: Result<()>)
      modifies this
      ensures Did(Hub.ClaimRedemption(old(Snapshot()), ctx, redemptionIds), ctx.now, old(Snapshot()), old(log), r)
    {
      var saved, savedLog := Snapshot(), log;
      if redemptionPaused {
        return Revert(FeaturePaused);
      }
      var fees := 0;
      ghost var events: seq<Event> := [];
      var redemptionsSize := |redemptionIds|;
      for i := 0 to redemptionsSize
        invariant ClaimRedemptions(saved, ctx, redemptionIds[..i]) == Ok(Redeeming(Snapshot(), fees, events))
        invariant log == savedLog + Stamp(ctx.now, events)
      {
        assert redemptionIds[..i + 1][..i] == redemptionIds[..i];
        var total, emitted := ClaimRedemptionTurn(ctx, redemptionIds[i], fees, events);
        if total.Revert? {
          ClaimRedemptionsStop(saved, ctx, redemptionIds, i + 1);
          Rollback(saved, savedLog);
          return Revert(total.error);
        }
        fees := total.value;
        StampAppend(ctx.now, events, [emitted]);
        events := events + [emitted];
      }
      assert redemptionIds[..redemptionsSize] == redemptionIds;
      if fees > 0 {
        r := TransferCollateral(assetSender, feeRecipient, fees);
        if r.Revert? {
          Rollback(saved, savedLog);
          return;
        }
      }
      return Ok(());
    }

    method AddProof(ctx: Context, txHash: Id, user: Address, depositAmountAfterFee: nat, feeAmount: nat, timestamp: nat)
      returns (r: Result<()>)
      modifies this
      ensures Did(Hub.AddProof(old(Snapshot()), ctx, txHash, user, depositAmountAfterFee, feeAmount, timestamp), ctx.now,
                  old(Snapshot()), old(log), r)
    {
      var _ :- HasRole(ctx, Relayer);
      var _ :- CheckRestrictions(ctx, user);
      if At(deposits, txHash).user != ZERO_ADDRESS {
        return Revert(DepositProofAlreadyExists);
      }
      deposits := Put(deposits, txHash, Record(user, depositAmountAfterFee, 0));
      Emit(ctx.now, DepositProofAdded(txHash, user, depositAmountAfterFee, feeAmount, timestamp));
      return Ok(());
    }

    method SetPriceIdForDeposits(ctx: Context, depositIds: seq<Id>, priceIds: seq<nat>) returns (r: Result<()>)
      modifies this
      ensures Did(Hub.SetPriceIdForDeposits(old(Snapshot()), ctx, depositIds, priceIds), ctx.now,
                  old(Snapshot()), old(log), r)
    {
      var saved, savedLog := Snapshot(), log;
      var _ :- HasRole(ctx, PriceIdSetter);
      var depositsSize := |depositIds|;
      if depositsSize != |priceIds| {
        return Revert(ArraySizeMismatch);
      }
      for i := 0 to depositsSize
        invariant DidInside(SetDepositPrices(saved, depositIds[..i], priceIds[..i]), ctx.now, savedLog, Ok(()))
      {
        SetDepositPricesNext(saved, ctx.now, depositIds, priceIds, i);
        var depositor := At(deposits, depositIds[i]);
        if depositor.user == ZERO_ADDRESS || depositor.priceId != 0 {
          Rollback(saved, savedLog);
          return Revert(if depositor.user == ZERO_ADDRESS then DepositorNull else PriceIdAlreadySet);
        }
        deposits := Put(deposits, depositIds[i], depositor.(priceId := priceIds[i]));
        Emit(ctx.now, PriceIdSetForDeposit(depositIds[i], priceIds[i]));
      }
      assert depositIds[..depositsSize] == depositIds && priceIds[..depositsSize] == priceIds;
      return Ok(());
    }

    method SetPriceIdForRedemptions(ctx: Context, redemptionIds: seq<Id>, priceIds: seq<nat>) returns (r: Result<()>)
      modifies this
      ensures Did(Hub.SetPriceIdForRedemptions(old(Snapshot()), ctx, redemptionIds, priceIds), ctx.now,
                  old(Snapshot()), old(log), r)
    {
      var saved, savedLog := Snapshot(), log;
      var _ :- HasRole(ctx, PriceIdSetter);
      var redemptionsSize := |redemptionIds|;
      if redemptionsSize != |priceIds| {
        return Revert(ArraySizeMismatch);
      }
      for i := 0 to redemptionsSize
        invariant DidInside(SetRedemptionPrices(saved, redemptionIds[..i], priceIds[..i]), ctx.now, savedLog, Ok(()))
      {
        SetRedemptionPricesNext(saved, ctx.now, redemptionIds, priceIds, i);
        var member := At(redemptions, redemptionIds[i]);
        if member.priceId != 0 {
          Rollback(saved, savedLog);
          return Revert(PriceIdAlreadySet);
        }
        redemptions := Put(redemptions, redemptionIds[i], member.(priceId := priceIds[i]));
        Emit(ctx.now, PriceIdSetForRedemption(redemptionIds[i], priceIds[i]));
      }
      assert redemptionIds[..redemptionsSize] == redemptionIds && priceIds[..redemptionsSize] == priceIds;
      return Ok(());
    }

    method SetClaimableTimestamp(ctx: Context, claimTimestamp: nat, depositIds: seq<Id>) returns (r: Result<()>)
      modifies this
      ensures Did(Hub.SetClaimableTimestamp(old(Snapshot()), ctx, claimTimestamp, depositIds), ctx.now,
                  old(Snapshot()), old(log), r)
    {
      ghost var saved, savedLog := Snapshot(), log;
      var _ :- HasRole(ctx, TimestampSetter);
      if claimTimestamp < ctx.now {
        return Revert(ClaimableTimestampInPast);
      }
      var depositsSize := |depositIds|;
      for i := 0 to depositsSize
        invariant Snapshot() == SetTimestamps(saved, claimTimestamp, depositIds[..i]).hub
        invariant log == savedLog + Stamp(ctx.now, SetTimestamps(saved, claimTimestamp, depositIds[..i]).events)
      {
        assert depositIds[..i + 1][..i] == depositIds[..i];
        claimableAt := PutTime(claimableAt, depositIds[i], claimTimestamp);
        Emit(ctx.now, ClaimableTimestampSet(claimTimestamp, depositIds[i]));
        StampAppend(ctx.now, SetTimestamps(saved, claimTimestamp, depositIds[..i]).events,
                    [ClaimableTimestampSet(claimTimestamp, depositIds[i])]);
      }
      assert depositIds[..depositsSize] == depositIds;
      return Ok(());
    }

    method OverwriteDepositor(ctx: Context, depositId: Id, record: Record) returns (r: Result<()>)
      modifies this
      ensures Did(Hub.OverwriteDepositor(old(Snapshot()), ctx, depositId, record), ctx.now, old(Snapshot()), old(log), r)
    {
      var _ :- HasRole(ctx, ManagerAdmin);
      var _ :- CheckRestrictions(ctx, record.user);
      var oldDepositor := At(deposits, depositId);
      deposits := Put(deposits, depositId, record);
      Emit(ctx.now, DepositorOverwritten(depositId, oldDepositor, record));
      return Ok(());
    }

    method OverwriteRedeemer(ctx: Context, redemptionId: Id, record: Record) returns (r: Result<()>)
      modifies this
      ensures Did(Hub.OverwriteRedeemer(old(Snapshot()), ctx, redemptionId, record), ctx.now, old(Snapshot()), old(log), r)
    {
      var _ :- HasRole(ctx, ManagerAdmin);
      var _ :- CheckRestrictions(ctx, record.user);
      var oldRedeemer := At(redemptions, redemptionId);
      redemptions := Put(redemptions, redemptionId, record);
      Emit(ctx.now, RedeemerOverwritten(redemptionId, oldRedeemer, record));
      return Ok(());
    }

    /** The setters of fees, minima and payment addresses, and the pause switches. */
    method Configure(ctx: Context, setting: Setting) returns (r: Result<()>)
      modifies this
      ensures match Hub.Configure(old(Snapshot()), ctx, setting)
              case Ok(h) => r.Ok? && Snapshot() == h && log == old(log) + Stamp(ctx.now, [OtherEvent])
              case Revert(e) => r == Revert(e) && Snapshot() == old(Snapshot()) && log == old(log)
    {
      if Pauses(setting) {
        r := Pause(ctx, setting);
      } else if Bounded(setting) {
        r := SetBounded(ctx, setting);
      } else {
        r := SetFree(ctx, setting);
      }
      if r.Revert? {
        return;
      }
      Emit(ctx.now, OtherEvent);
      return Ok(());
    }

    predicate Pauses(setting: Setting) {
      setting.PauseSubscription? || setting.PauseRedemption? || setting.PauseOffChainRedemption?
    }

    /** Settings whose setter checks its argument. */
    predicate Bounded(setting: Setting) {
      setting.MintFee? || setting.RedemptionFee? || setting.MinimumDeposit? || setting.MinimumRedemption?
    }

    method Pause(ctx: Context, setting: Setting) returns (r: Result<()>)
      requires Pauses(setting)
      modifies `subscriptionPaused, `redemptionPaused, `offChainRedemptionPaused
      ensures match Hub.Configure(old(Snapshot()), ctx, setting)
              case Ok(h) => r.Ok? && Snapshot() == h
              case Revert(e) => r == Revert(e) && Snapshot() == old(Snapshot())
    {
      var _ :- HasRole(ctx, PauserAdmin);
      match setting {
        case PauseSubscription => subscriptionPaused := true;
        case PauseRedemption => redemptionPaused := true;
        case PauseOffChainRedemption => offChainRedemptionPaused := true;
      }
      return Ok(());
    }

    method SetFree(ctx: Context, setting: Setting) returns (r: Result<()>)
      requires !Pauses(setting) && !Bounded(setting)
      modifies `minimumOffChainRedemptionAmount, `feeRecipient, `assetSender
      modifies `subscriptionPaused, `redemptionPaused, `offChainRedemptionPaused
      ensures match Hub.Configure(old(Snapshot()), ctx, setting)
              case Ok(h) => r.Ok? && Snapshot() == h
              case Revert(e) => r == Revert(e) && Snapshot() == old(Snapshot())
    {
      var _ :- HasRole(ctx, ManagerAdmin);
      match setting {
        case MinimumOffChainRedemption(amount) => minimumOffChainRedemptionAmount := amount;
        case FeeRecipient(account) => feeRecipient := account;
        case AssetSender(account) => assetSender := account;
        case UnpauseSubscription => subscriptionPaused := false;
        case UnpauseRedemption => redemptionPaused := false;
        case UnpauseOffChainRedemption => offChainRedemptionPaused := false;
      }
      return Ok(());
    }

    method SetBounded(ctx: Context, setting: Setting) returns (r: Result<()>)
      requires Bounded(setting)
      modifies `minimumDepositAmount, `minimumRedemptionAmount, `mintFee, `redemptionFee
      ensures match Hub.Configure(old(Snapshot()), ctx, setting)
              case Ok(h) => r.Ok? && Snapshot() == h
              case Revert(e) => r == Revert(e) && Snapshot() == old(Snapshot())
    {
      var _ :- HasRole(ctx, ManagerAdmin);
      match setting {
        case MintFee(bps) =>
          if bps > BPS_DENOMINATOR {
            return Revert(FeeTooLarge);
          }
          mintFee := bps;
        case RedemptionFee(bps) =>
          if bps > BPS_DENOMINATOR {
            return Revert(FeeTooLarge);
          }
          redemptionFee := bps;
        case MinimumDeposit(amount) =>
          if amount < BPS_DENOMINATOR {
            return Revert(AmountTooSmall);
          }
          minimumDepositAmount := amount;
        case MinimumRedemption(amount) =>
          if amount < BPS_DENOMINATOR {
            return Revert(AmountTooSmall);
          }
          minimumRedemptionAmount := amount;
      }
      return Ok(());
    }
  }
}
