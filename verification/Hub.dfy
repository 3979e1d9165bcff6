/** RWAHub with its off-chain redemptions and the USBS manager on top: every entry
    point as a function from the hub's state to its effect, or a revert. */
module Hub {
  import opened Outcomes
  import opened FixedPoint
  import opened MapSums
  import opened HubLedger
  import Compounding
  import Token

  const ASSET_RECIPIENT: Address := 0xbDa73A0F13958ee444e0782E1768aB4B76EdaE28

  datatype Role = ManagerAdmin | PauserAdmin | PriceIdSetter | Relayer | TimestampSetter

  /** What a call sees besides its arguments. The price source, the hub's own lists and
      the fund token's lists can all be replaced between calls, so each call has its own. */
  datatype Context = Context(
    sender: Address,
    now: nat,
    roles: set<Role>,
    prices: map<nat, nat>,
    blocked: set<Address>,
    sanctioned: set<Address>,
    fundGate: Token.Gate,
    fundRoles: Token.Roles,
    hubIsMinter: bool)

  datatype State = State(
    self: Address,
    multiplier: nat,
    deposits: map<Id, Record>,
    redemptions: map<Id, Record>,
    claimableAt: map<Id, nat>,
    subscriptionCounter: nat,
    redemptionCounter: nat,
    minimumDepositAmount: nat,
    minimumRedemptionAmount: nat,
    minimumOffChainRedemptionAmount: nat,
    mintFee: nat,
    redemptionFee: nat,
    subscriptionPaused: bool,
    redemptionPaused: bool,
    offChainRedemptionPaused: bool,
    assetSender: Address,
    feeRecipient: Address,
    collateral: Token.Ledger,
    rwa: Token.Ledger)

  datatype Effect = Effect(hub: State, events: seq<Event>)

  /** The constructor, next to two already deployed tokens. */
  function Init(self: Address, collateralAddress: Address, rwaAddress: Address, collateralDecimals: nat, rwaDecimals: nat,
                assetSender: Address, feeRecipient: Address, minimumDeposit: nat, minimumRedemption: nat,
                collateral: Token.Ledger, rwa: Token.Ledger): Result<State> {
    var _ :- Need(collateralAddress != ZERO_ADDRESS && rwaAddress != ZERO_ADDRESS
                  && assetSender != ZERO_ADDRESS && feeRecipient != ZERO_ADDRESS, InvalidAddress);
    var exponent :- CheckedSub(rwaDecimals, collateralDecimals);
    var multiplier := Compounding.Pow(10, exponent);
    var _ :- Need(multiplier <= MAX_UINT256, Panic);
    Ok(State(self, multiplier, map[], map[], map[], 1, 1, minimumDeposit, minimumRedemption, minimumRedemption,
             0, 0, false, false, false, assetSender, feeRecipient, collateral, rwa))
  }

  function HasRole(ctx: Context, role: Role): Result<()> {
    Need(role in ctx.roles, MissingRole)
  }

  function NotPaused(paused: bool): Result<()> {
    Need(!paused, FeaturePaused)
  }

  /** USBSManager._checkRestrictions. */
  function CheckRestrictions(ctx: Context, account: Address): Result<()> {
    var _ :- Need(account !in ctx.blocked, BlockedAccount);
    Need(account !in ctx.sanctioned, SanctionedAccount)
  }

  /** The hub moving collateral that was approved to it. */
  function Pay(h: State, from: Address, to: Address, amount: nat): Result<State> {
    var ledger :- Token.TransferFrom(h.collateral, Token.Open, h.self, from, to, amount);
    Ok(h.(collateral := ledger))
  }

  /** A fee transfer, which is skipped when there is no fee. */
  function PayFee(h: State, from: Address, amount: nat): Result<State> {
    if amount > 0 then Pay(h, from, h.feeRecipient, amount) else Ok(h)
  }

  // ------------------------------------------------------------- subscriptions

  /** The checks of a subscription, its fee, and what is left of the amount. */
  function SubscriptionTerms(h: State, ctx: Context, amount: nat): Result<(nat, nat)> {
    var _ :- NotPaused(h.subscriptionPaused);
    var _ :- CheckRestrictions(ctx, ctx.sender);
    var _ :- Need(amount >= h.minimumDepositAmount, DepositTooSmall);
    var fee :- Fee(amount, h.mintFee);
    var afterFee :- CheckedSub(amount, fee);
    Ok((fee, afterFee))
  }

  /** The two transfers of a subscription: the fee, if any, and then the deposit. */
  function Collect(h: State, from: Address, fee: nat, afterFee: nat): Result<State> {
    var feePaid :- PayFee(h, from, fee);
    Pay(feePaid, from, ASSET_RECIPIENT, afterFee)
  }

  function RequestSubscription(h: State, ctx: Context, amount: nat): Result<Effect> {
    var terms :- SubscriptionTerms(h, ctx, amount);
    var depositId := h.subscriptionCounter;
    var next :- CheckedAdd(depositId, 1);
    var recorded := h.(subscriptionCounter := next,
                       deposits := Put(h.deposits, depositId, Record(ctx.sender, terms.1, 0)));
    var paid :- Collect(recorded, ctx.sender, terms.0, terms.1);
    Ok(Effect(paid, [MintRequested(ctx.sender, depositId, amount, terms.1, terms.0)]))
  }

  /** RWAHub._claimMint. */
  function ClaimMintBase(h: State, ctx: Context, depositId: Id): Result<Effect> {
    var depositor := At(h.deposits, depositId);
    var _ :- Need(depositor.priceId != 0, PriceIdNotSet);
    var price := Get(ctx.prices, depositor.priceId);
    var rwaOwed :- MintAmountForPrice(h.multiplier, depositor.amount, price);
    var _ :- Need(ctx.hubIsMinter, MissingRole);
    var rwa :- Token.Mint(h.rwa, ctx.fundGate, h.self, depositor.user, rwaOwed);
    Ok(Effect(h.(deposits := Put(h.deposits, depositId, EMPTY), rwa := rwa),
              [MintCompleted(depositor.user, depositId, rwaOwed, depositor.amount, price, depositor.priceId)]))
  }

  /** USBSManager._claimMint. */
  function ClaimMintOne(h: State, ctx: Context, depositId: Id): Result<Effect> {
    var claimableAt := Get(h.claimableAt, depositId);
    var _ :- Need(claimableAt != 0, ClaimableTimestampNotSet);
    var _ :- Need(claimableAt <= ctx.now, MintNotYetClaimable);
    var minted :- ClaimMintBase(h, ctx, depositId);
    Ok(Effect(minted.hub.(claimableAt := PutTime(minted.hub.claimableAt, depositId, 0)), minted.events))
  }

  /** The claims of a batch, one after the other. */
  function ClaimMints(h: State, ctx: Context, depositIds: seq<Id>): Result<Effect> {
    if depositIds == [] then Ok(Effect(h, [])) else
      var last := |depositIds| - 1;
      var before :- ClaimMints(h, ctx, depositIds[..last]);
      var one :- ClaimMintOne(before.hub, ctx, depositIds[last]);
      Ok(Effect(one.hub, before.events + one.events))
  }

  function ClaimMint(h: State, ctx: Context, depositIds: seq<Id>): Result<Effect> {
    var _ :- NotPaused(h.subscriptionPaused);
    ClaimMints(h, ctx, depositIds)
  }

  // ------------------------------------------------------------- redemptions

  function RequestRedemption(h: State, ctx: Context, amount: nat): Result<Effect> {
    var _ :- NotPaused(h.redemptionPaused);
    var _ :- Need(amount >= h.minimumRedemptionAmount, RedemptionTooSmall);
    var redemptionId := h.redemptionCounter;
    var next :- CheckedAdd(redemptionId, 1);
    var rwa :- Token.BurnFrom(h.rwa, ctx.fundGate, h.self, ctx.sender, amount);
    Ok(Effect(h.(redemptionCounter := next,
                 redemptions := Put(h.redemptions, redemptionId, Record(ctx.sender, amount, 0)), rwa := rwa),
              [RedemptionRequested(ctx.sender, redemptionId, amount)]))
  }

  function RequestRedemptionServicedOffchain(h: State, ctx: Context, amount: nat, destination: nat): Result<Effect> {
    var _ :- NotPaused(h.offChainRedemptionPaused);
    var _ :- Need(amount >= h.minimumOffChainRedemptionAmount, RedemptionTooSmall);
    var redemptionId := h.redemptionCounter;
    var next :- CheckedAdd(redemptionId, 1);
    var rwa :- Token.BurnFrom(h.rwa, ctx.fundGate, h.self, ctx.sender, amount);
    Ok(Effect(h.(redemptionCounter := next, rwa := rwa),
              [RedemptionRequestedServicedOffChain(ctx.sender, redemptionId, amount, destination)]))
  }

  /** A batch of redemptions in progress: the fees are owed but not yet transferred. */
  datatype Redeeming = Redeeming(hub: State, fees: nat, events: seq<Event>)

  /** Payee, amount after the fee, fee and event of a claim: its checks and arithmetic. */
  datatype Terms = Terms(user: Address, postFees: nat, fee: nat, event: Event)

  function RedemptionTerms(h: State, ctx: Context, redemptionId: Id): Result<Terms> {
    var member := At(h.redemptions, redemptionId);
    var _ :- CheckRestrictions(ctx, member.user);
    var _ :- Need(member.priceId != 0, PriceIdNotSet);
    var price := Get(ctx.prices, member.priceId);
    var collateralDue :- RedemptionAmountForRwa(h.multiplier, member.amount, price);
    var fee :- Fee(collateralDue, h.redemptionFee);
    var postFees :- CheckedSub(collateralDue, fee);
    Ok(Terms(member.user, postFees, fee, RedemptionCompleted(member.user, redemptionId, member.amount, postFees, price)))
  }

  /** One turn of claimRedemption's loop. */
  function ClaimRedemptionOne(r: Redeeming, ctx: Context, redemptionId: Id): Result<Redeeming> {
    var terms :- RedemptionTerms(r.hub, ctx, redemptionId);
    var fees :- CheckedAdd(r.fees, terms.fee);
    var deleted := r.hub.(redemptions := Put(r.hub.redemptions, redemptionId, EMPTY));
    var paid :- Pay(deleted, deleted.assetSender, terms.user, terms.postFees);
    Ok(Redeeming(paid, fees, r.events + [terms.event]))
  }

  function ClaimRedemptions(h: State, ctx: Context, redemptionIds: seq<Id>): Result<Redeeming> {
    if redemptionIds == [] then Ok(Redeeming(h, 0, [])) else
      var last := |redemptionIds| - 1;
      var before :- ClaimRedemptions(h, ctx, redemptionIds[..last]);
      ClaimRedemptionOne(before, ctx, redemptionIds[last])
  }

  function ClaimRedemption(h: State, ctx: Context, redemptionIds: seq<Id>): Result<Effect> {
    var _ :- NotPaused(h.redemptionPaused);
    var r :- ClaimRedemptions(h, ctx, redemptionIds);
    var paid :- PayFee(r.hub, r.hub.assetSender, r.fees);
    Ok(Effect(paid, r.events))
  }

  // ------------------------------------------------------------- relayer and operators

  function AddProof(h: State, ctx: Context, txHash: Id, user: Address, afterFee: nat, feeAmount: nat, timestamp: nat)
    : Result<Effect>
  {
    var _ :- HasRole(ctx, Relayer);
    var _ :- CheckRestrictions(ctx, user);
    var _ :- Need(At(h.deposits, txHash).user == ZERO_ADDRESS, DepositProofAlreadyExists);
    Ok(Effect(h.(deposits := Put(h.deposits, txHash, Record(user, afterFee, 0))),
              [DepositProofAdded(txHash, user, afterFee, feeAmount, timestamp)]))
  }

  function SetDepositPrice(h: State, depositId: Id, priceId: nat): Result<Effect> {
    var depositor := At(h.deposits, depositId);
    var _ :- Need(depositor.user != ZERO_ADDRESS, DepositorNull);
    var _ :- Need(depositor.priceId == 0, PriceIdAlreadySet);
    Ok(Effect(h.(deposits := Put(h.deposits, depositId, depositor.(priceId := priceId))),
              [PriceIdSetForDeposit(depositId, priceId)]))
  }

  function SetDepositPrices(h: State, depositIds: seq<Id>, priceIds: seq<nat>): Result<Effect>
    requires |depositIds| == |priceIds|
  {
    if depositIds == [] then Ok(Effect(h, [])) else
      var last := |depositIds| - 1;
      var before :- SetDepositPrices(h, depositIds[..last], priceIds[..last]);
      var one :- SetDepositPrice(before.hub, depositIds[last], priceIds[last]);
      Ok(Effect(one.hub, before.events + one.events))
  }

  function SetPriceIdForDeposits(h: State, ctx: Context, depositIds: seq<Id>, priceIds: seq<nat>): Result<Effect> {
    var _ :- HasRole(ctx, PriceIdSetter);
    if |depositIds| != |priceIds| then Revert(ArraySizeMismatch) else SetDepositPrices(h, depositIds, priceIds)
  }

  /** The record need not exist. */
  function SetRedemptionPrice(h: State, redemptionId: Id, priceId: nat): Result<Effect> {
    var member := At(h.redemptions, redemptionId);
    var _ :- Need(member.priceId == 0, PriceIdAlreadySet);
    Ok(Effect(h.(redemptions := Put(h.redemptions, redemptionId, member.(priceId := priceId))),
              [PriceIdSetForRedemption(redemptionId, priceId)]))
  }

  function SetRedemptionPrices(h: State, redemptionIds: seq<Id>, priceIds: seq<nat>): Result<Effect>
    requires |redemptionIds| == |priceIds|
  {
    if redemptionIds == [] then Ok(Effect(h, [])) else
      var last := |redemptionIds| - 1;
      var before :- SetRedemptionPrices(h, redemptionIds[..last], priceIds[..last]);
      var one :- SetRedemptionPrice(before.hub, redemptionIds[last], priceIds[last]);
      Ok(Effect(one.hub, before.events + one.events))
  }

  function SetPriceIdForRedemptions(h: State, ctx: Context, redemptionIds: seq<Id>, priceIds: seq<nat>): Result<Effect> {
    var _ :- HasRole(ctx, PriceIdSetter);
    if |redemptionIds| != |priceIds| then Revert(ArraySizeMismatch) else SetRedemptionPrices(h, redemptionIds, priceIds)
  }

  function SetTimestamps(h: State, claimTimestamp: nat, depositIds: seq<Id>): Effect {
    if depositIds == [] then Effect(h, []) else
      var last := |depositIds| - 1;
      var before := SetTimestamps(h, claimTimestamp, depositIds[..last]);
      Effect(before.hub.(claimableAt := PutTime(before.hub.claimableAt, depositIds[last], claimTimestamp)),
             before.events + [ClaimableTimestampSet(claimTimestamp, depositIds[last])])
  }

  function SetClaimableTimestamp(h: State, ctx: Context, claimTimestamp: nat, depositIds: seq<Id>): Result<Effect> {
    var _ :- HasRole(ctx, TimestampSetter);
    var _ :- Need(claimTimestamp >= ctx.now, ClaimableTimestampInPast);
    Ok(SetTimestamps(h, claimTimestamp, depositIds))
  }

  function OverwriteDepositor(h: State, ctx: Context, depositId: Id, record: Record): Result<Effect> {
    var _ :- HasRole(ctx, ManagerAdmin);
    var _ :- CheckRestrictions(ctx, record.user);
    Ok(Effect(h.(deposits := Put(h.deposits, depositId, record)),
              [DepositorOverwritten(depositId, At(h.deposits, depositId), record)]))
  }

  function OverwriteRedeemer(h: State, ctx: Context, redemptionId: Id, record: Record): Result<Effect> {
    var _ :- HasRole(ctx, ManagerAdmin);
    var _ :- CheckRestrictions(ctx, record.user);
    Ok(Effect(h.(redemptions := Put(h.redemptions, redemptionId, record)),
              [RedeemerOverwritten(redemptionId, At(h.redemptions, redemptionId), record)]))
  }

  datatype Setting =
    | MintFee(bps: nat)
    | RedemptionFee(bps: nat)
    | MinimumDeposit(amount: nat)
    | MinimumRedemption(amount: nat)
    | MinimumOffChainRedemption(amount: nat)
    | FeeRecipient(account: Address)
    | AssetSender(account: Address)
    | PauseSubscription
    | PauseRedemption
    | PauseOffChainRedemption
    | UnpauseSubscription
    | UnpauseRedemption
    | UnpauseOffChainRedemption

  function Configure(h: State, ctx: Context, setting: Setting): Result<State> {
    var pausing := setting.PauseSubscription? || setting.PauseRedemption? || setting.PauseOffChainRedemption?;
    var _ :- HasRole(ctx, if pausing then PauserAdmin else ManagerAdmin);
    match setting
    case MintFee(bps) =>
      var _ :- Need(bps <= BPS_DENOMINATOR, FeeTooLarge);
      Ok(h.(mintFee := bps))
    case RedemptionFee(bps) =>
      var _ :- Need(bps <= BPS_DENOMINATOR, FeeTooLarge);
      Ok(h.(redemptionFee := bps))
    case MinimumDeposit(amount) =>
      var _ :- Need(amount >= BPS_DENOMINATOR, AmountTooSmall);
      Ok(h.(minimumDepositAmount := amount))
    case MinimumRedemption(amount) =>
      var _ :- Need(amount >= BPS_DENOMINATOR, AmountTooSmall);
      Ok(h.(minimumRedemptionAmount := amount))
    case MinimumOffChainRedemption(amount) => Ok(h.(minimumOffChainRedemptionAmount := amount))
    case FeeRecipient(account) => Ok(h.(feeRecipient := account))
    case AssetSender(account) => Ok(h.(assetSender := account))
    case PauseSubscription => Ok(h.(subscriptionPaused := true))
    case PauseRedemption => Ok(h.(redemptionPaused := true))
    case PauseOffChainRedemption => Ok(h.(offChainRedemptionPaused := true))
    case UnpauseSubscription => Ok(h.(subscriptionPaused := false))
    case UnpauseRedemption => Ok(h.(redemptionPaused := false))
    case UnpauseOffChainRedemption => Ok(h.(offChainRedemptionPaused := false))
  }

  // ------------------------------------------------------------- the transition system

  datatype Action =
    | RequestSubscriptionAction(amount: nat)
    | ClaimMintAction(ids: seq<Id>)
    | RequestRedemptionAction(amount: nat)
    | RequestOffchainAction(amount: nat, destination: nat)
    | ClaimRedemptionAction(ids: seq<Id>)
    | AddProofAction(txHash: Id, user: Address, afterFee: nat, feeAmount: nat, timestamp: nat)
    | SetDepositPricesAction(ids: seq<Id>, priceIds: seq<nat>)
    | SetRedemptionPricesAction(ids: seq<Id>, priceIds: seq<nat>)
    | SetTimestampAction(claimTimestamp: nat, ids: seq<Id>)
    | OverwriteDepositorAction(id: Id, record: Record)
    | OverwriteRedeemerAction(id: Id, record: Record)
    | ConfigureAction(setting: Setting)
    | FundTokenAction(op: Token.Op)       // anybody calling the fund token directly
    | CollateralAction(op: Token.Op)      // anybody calling the collateral directly

  function Step(h: State, ctx: Context, a: Action): Result<Effect> {
    match a
    case RequestSubscriptionAction(amount) => RequestSubscription(h, ctx, amount)
    case ClaimMintAction(ids) => ClaimMint(h, ctx, ids)
    case RequestRedemptionAction(amount) => RequestRedemption(h, ctx, amount)
    case RequestOffchainAction(amount, destination) => RequestRedemptionServicedOffchain(h, ctx, amount, destination)
    case ClaimRedemptionAction(ids) => ClaimRedemption(h, ctx, ids)
    case AddProofAction(txHash, user, afterFee, feeAmount, timestamp) =>
      AddProof(h, ctx, txHash, user, afterFee, feeAmount, timestamp)
    case SetDepositPricesAction(ids, priceIds) => SetPriceIdForDeposits(h, ctx, ids, priceIds)
    case SetRedemptionPricesAction(ids, priceIds) => SetPriceIdForRedemptions(h, ctx, ids, priceIds)
    case SetTimestampAction(t, ids) => SetClaimableTimestamp(h, ctx, t, ids)
    case OverwriteDepositorAction(id, record) => OverwriteDepositor(h, ctx, id, record)
    case OverwriteRedeemerAction(id, record) => OverwriteRedeemer(h, ctx, id, record)
    case ConfigureAction(setting) =>
      var configured :- Configure(h, ctx, setting);
      Ok(Effect(configured, [OtherEvent]))
    case FundTokenAction(op) =>
      var rwa :- Token.Step(h.rwa, ctx.fundGate, ctx.sender, ctx.fundRoles, op);
      Ok(Effect(h.(rwa := rwa), [FundTokenCalled(Token.SupplyChange(op))]))
    case CollateralAction(op) =>
      var collateral :- Token.Step(h.collateral, Token.Open, ctx.sender, Token.Roles(true, true), op);
      Ok(Effect(h.(collateral := collateral), [OtherEvent]))
  }

  /** The chain: the hub and everything logged so far. */
  datatype World = World(hub: State, log: seq<Entry>)

  datatype Call = Call(ctx: Context, action: Action)

  function Stamp(now: nat, events: seq<Event>): (log: seq<Entry>)
    ensures |log| == |events|
    ensures forall i | 0 <= i < |log| :: log[i] == Entry(now, events[i])
  {
    seq(|events|, i requires 0 <= i < |events| => Entry(now, events[i]))
  }

  /** A call that reverts leaves everything as it was. */
  function Exec(w: World, c: Call): World {
    match Step(w.hub, c.ctx, c.action)
    case Ok(effect) => World(effect.hub, w.log + Stamp(c.ctx.now, effect.events))
    case Revert(_) => w
  }

  function Run(w: World, calls: seq<Call>): World {
    if calls == [] then w else Exec(Run(w, calls[..|calls| - 1]), calls[|calls| - 1])
  }
}
