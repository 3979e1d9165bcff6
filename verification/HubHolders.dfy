/** What the hub does to each holder: fund token balances are the ones its events
    tell, and an account that fails the checks throughout takes part in nothing. */
module HubHolders {
  import opened Outcomes
  import opened HubLedger
  import opened Hub
  import opened HubEvents
  import HubRuns
  import Token

  // ------------------------------------------------------------- balances by the log

  /** What an event adds to an account's fund tokens. */
  function NetOf(e: Event, account: Address): int {
    match e
    case MintCompleted(user, _, out, _, _, _) => if user == account then out else 0
    case RedemptionRequested(user, _, amount) => if user == account then 0 - amount else 0
    case RedemptionRequestedServicedOffChain(user, _, amount, _) => if user == account then 0 - amount else 0
    case _ => 0
  }

  function Net(log: seq<Entry>, account: Address): int {
    if log == [] then 0 else Net(log[..|log| - 1], account) + NetOf(log[|log| - 1].event, account)
  }

  lemma {:induction false} NetConcat(a: seq<Entry>, b: seq<Entry>, account: Address)
    ensures Net(a + b, account) == Net(a, account) + Net(b, account)
  {
    if b == [] {
      assert a + b == a;
    } else {
      assert (a + b)[..|a + b| - 1] == a + b[..|b| - 1];
      NetConcat(a, b[..|b| - 1], account);
    }
  }

  predicate Nets(h: State, now: nat, h': State, events: seq<Event>, account: Address) {
    Token.Balance(h'.rwa, account) == Token.Balance(h.rwa, account) + Net(Stamp(now, events), account)
  }

  lemma NetsByOne(h: State, now: nat, h': State, e: Event, account: Address)
    requires Token.Balance(h'.rwa, account) == Token.Balance(h.rwa, account) + NetOf(e, account)
    ensures Nets(h, now, h', [e], account)
  {
    var log := Stamp(now, [e]);
    assert log[..0] == [];
    assert log[0] == Entry(now, e);
  }

  lemma NetsThen(h: State, now: nat, h1: State, e1: seq<Event>, h2: State, e2: seq<Event>, account: Address)
    requires Nets(h, now, h1, e1, account) && Nets(h1, now, h2, e2, account)
    ensures Nets(h, now, h2, e1 + e2, account)
  {
    assert Stamp(now, e1 + e2) == Stamp(now, e1) + Stamp(now, e2);
    NetConcat(Stamp(now, e1), Stamp(now, e2), account);
  }

  /** Events that touch no balance, beside a ledger that did not change. */
  lemma {:induction false} NothingNets(h: State, now: nat, h': State, events: seq<Event>, account: Address)
    requires h'.rwa == h.rwa && forall e <- events :: NetOf(e, account) == 0
    ensures Nets(h, now, h', events, account)
  {
    if events != [] {
      var before := events[..|events| - 1];
      NothingNets(h, now, h', before, account);
      assert Stamp(now, events)[..|events| - 1] == Stamp(now, before);
      assert events[|events| - 1] in events;
    }
  }

  lemma {:induction false} ClaimMintsNet(h: State, ctx: Context, ids: seq<Id>, account: Address)
    requires ClaimMints(h, ctx, ids).Ok?
    ensures var e := ClaimMints(h, ctx, ids).value; Nets(h, ctx.now, e.hub, e.events, account)
  {
    if ids != [] {
      var last := |ids| - 1;
      ClaimMintsNet(h, ctx, ids[..last], account);
      var before := ClaimMints(h, ctx, ids[..last]).value;
      var one := ClaimMintOne(before.hub, ctx, ids[last]).value;
      NetsByOne(before.hub, ctx.now, one.hub, one.events[0], account);
      NetsThen(h, ctx.now, before.hub, before.events, one.hub, one.events, account);
    }
  }

  /** A redemption request burns the sender's own tokens and nobody else's. */
  lemma RequestNets(h: State, ctx: Context, a: Action, account: Address)
    requires a.RequestRedemptionAction? || a.RequestOffchainAction?
    requires Step(h, ctx, a).Ok?
    ensures var e := Step(h, ctx, a).value; Nets(h, ctx.now, e.hub, e.events, account)
  {
    var e := Step(h, ctx, a).value;
    NetsByOne(h, ctx.now, e.hub, e.events[0], account);
  }

  predicate MovesFundTokens(a: Action) {
    a.FundTokenAction? || a.ClaimMintAction? || a.RequestRedemptionAction? || a.RequestOffchainAction?
  }

  /** Every other entry point leaves the fund token alone, and its events say so. */
  lemma OtherStepsQuiet(h: State, ctx: Context, a: Action, account: Address)
    requires !MovesFundTokens(a) && Step(h, ctx, a).Ok?
    ensures Step(h, ctx, a).value.hub.rwa == h.rwa
    ensures forall e <- Step(h, ctx, a).value.events :: NetOf(e, account) == 0
  {
    match a
    case RequestSubscriptionAction(amount) => SubscriptionEmits(h, ctx, amount);
    case ClaimRedemptionAction(ids) => ClaimRedemptionsEmit(h, ctx, ids);
    case SetDepositPricesAction(ids, priceIds) => PricesEmit(h, ids, priceIds);
    case SetRedemptionPricesAction(ids, priceIds) => PricesEmit(h, ids, priceIds);
    case SetTimestampAction(t, ids) => TimestampsEmit(h, t, ids);
    case ConfigureAction(setting) => ConfigureKeepsTokens(h, ctx, setting);
    case _ =>
  }

  lemma StepNets(h: State, ctx: Context, a: Action, account: Address)
    requires !a.FundTokenAction? && Step(h, ctx, a).Ok?
    ensures var e := Step(h, ctx, a).value; Nets(h, ctx.now, e.hub, e.events, account)
  {
    if a.ClaimMintAction? {
      ClaimMintsNet(h, ctx, a.ids, account);
    } else if MovesFundTokens(a) {
      RequestNets(h, ctx, a, account);
    } else {
      OtherStepsQuiet(h, ctx, a, account);
      var e := Step(h, ctx, a).value;
      NothingNets(h, ctx.now, e.hub, e.events, account);
    }
  }

  /** Through the hub alone, every account's fund tokens are what it started with, plus
      the mints completed for it, minus what it redeemed: nothing is minted to or burned
      from anybody else. */
  lemma {:induction false} RunBalances(h0: State, calls: seq<Call>, account: Address)
    requires forall i | 0 <= i < |calls| :: !calls[i].action.FundTokenAction?
    ensures Token.Balance(HubRuns.RunEnd(h0, calls).rwa, account) ==
            Token.Balance(h0.rwa, account) + Net(HubRuns.RunLog(h0, calls), account)
  {
    if calls != [] {
      var before, last := calls[..|calls| - 1], calls[|calls| - 1];
      RunBalances(h0, before, account);
      var h, log := HubRuns.RunEnd(h0, before), HubRuns.RunLog(h0, before);
      if Step(h, last.ctx, last.action).Ok? {
        StepNets(h, last.ctx, last.action, account);
        NetConcat(log, Stamp(last.ctx.now, Step(h, last.ctx, last.action).value.events), account);
      }
    }
  }

  // ------------------------------------------------------------- accounts that fail the checks

  /** The account an event is about. */
  predicate Names(e: Event, account: Address) {
    match e
    case MintRequested(user, _, _, _, _) => user == account
    case DepositProofAdded(_, user, _, _, _) => user == account
    case MintCompleted(user, _, _, _, _, _) => user == account
    case RedemptionRequested(user, _, _) => user == account
    case RedemptionRequestedServicedOffChain(user, _, _, _) => user == account
    case RedemptionCompleted(user, _, _, _, _) => user == account
    case DepositorOverwritten(_, _, new_) => new_.user == account
    case RedeemerOverwritten(_, _, new_) => new_.user == account
    case _ => false
  }

  /** On the hub's blocklist or sanctioned, and not cleared by the fund token. */
  predicate Frozen(ctx: Context, account: Address) {
    (account in ctx.blocked || account in ctx.sanctioned) && !Token.Cleared(ctx.fundGate, account)
  }

  lemma MintNeverNames(h: State, ctx: Context, id: Id, account: Address)
    requires account != ZERO_ADDRESS && Frozen(ctx, account) && ClaimMintOne(h, ctx, id).Ok?
    ensures forall e <- ClaimMintOne(h, ctx, id).value.events :: !Names(e, account)
  {
    Token.HookClears(ctx.fundGate, h.self, ZERO_ADDRESS, At(h.deposits, id).user);
  }

  lemma {:induction false} MintsNeverName(h: State, ctx: Context, ids: seq<Id>, account: Address)
    requires account != ZERO_ADDRESS && Frozen(ctx, account) && ClaimMints(h, ctx, ids).Ok?
    ensures forall e <- ClaimMints(h, ctx, ids).value.events :: !Names(e, account)
  {
    if ids != [] {
      MintsNeverName(h, ctx, ids[..|ids| - 1], account);
      MintNeverNames(ClaimMints(h, ctx, ids[..|ids| - 1]).value.hub, ctx, ids[|ids| - 1], account);
    }
  }

  lemma PaymentNeverNames(r: Redeeming, ctx: Context, id: Id, account: Address)
    requires Frozen(ctx, account) && ClaimRedemptionOne(r, ctx, id).Ok?
    ensures exists e :: !Names(e, account) && ClaimRedemptionOne(r, ctx, id).value.events == r.events + [e]
  {
    var e := RedemptionTerms(r.hub, ctx, id).value.event;
    assert !Names(e, account);
    assert ClaimRedemptionOne(r, ctx, id).value.events == r.events + [e];
  }

  lemma {:induction false} PaymentsNeverName(h: State, ctx: Context, ids: seq<Id>, account: Address)
    requires Frozen(ctx, account) && ClaimRedemptions(h, ctx, ids).Ok?
    ensures forall e <- ClaimRedemptions(h, ctx, ids).value.events :: !Names(e, account)
  {
    if ids != [] {
      PaymentsNeverName(h, ctx, ids[..|ids| - 1], account);
      PaymentNeverNames(ClaimRedemptions(h, ctx, ids[..|ids| - 1]).value, ctx, ids[|ids| - 1], account);
    }
  }

  lemma BurningNeverNames(h: State, ctx: Context, amount: nat, account: Address)
    requires account != ZERO_ADDRESS && Frozen(ctx, account)
    requires Token.BurnFrom(h.rwa, ctx.fundGate, h.self, ctx.sender, amount).Ok?
    ensures ctx.sender != account
  {
    Token.HookClears(ctx.fundGate, h.self, ctx.sender, ZERO_ADDRESS);
  }

  lemma StepNeverNames(h: State, ctx: Context, a: Action, account: Address)
    requires account != ZERO_ADDRESS && Frozen(ctx, account) && Step(h, ctx, a).Ok?
    ensures forall e <- Step(h, ctx, a).value.events :: !Names(e, account)
  {
    match a
    case ClaimMintAction(ids) => MintsNeverName(h, ctx, ids, account);
    case ClaimRedemptionAction(ids) => PaymentsNeverName(h, ctx, ids, account);
    case RequestRedemptionAction(amount) => BurningNeverNames(h, ctx, amount, account);
    case RequestOffchainAction(amount, _) => BurningNeverNames(h, ctx, amount, account);
    case SetDepositPricesAction(ids, priceIds) => PricesEmit(h, ids, priceIds);
    case SetRedemptionPricesAction(ids, priceIds) => PricesEmit(h, ids, priceIds);
    case SetTimestampAction(t, ids) => TimestampsEmit(h, t, ids);
    case _ =>
  }

  lemma {:induction false} UnnamedNets(now: nat, events: seq<Event>, account: Address)
    requires forall e <- events :: !Names(e, account)
    ensures Net(Stamp(now, events), account) == 0
  {
    if events != [] {
      var before := events[..|events| - 1];
      UnnamedNets(now, before, account);
      assert Stamp(now, events)[..|events| - 1] == Stamp(now, before);
      assert events[|events| - 1] in events;
    }
  }

  lemma FrozenStep(h: State, ctx: Context, a: Action, account: Address)
    requires account != ZERO_ADDRESS && Frozen(ctx, account) && Step(h, ctx, a).Ok?
    ensures Token.Balance(Step(h, ctx, a).value.hub.rwa, account) == Token.Balance(h.rwa, account)
    ensures forall e <- Step(h, ctx, a).value.events :: !Names(e, account)
  {
    StepNeverNames(h, ctx, a, account);
    if a.FundTokenAction? {
      var call := Token.Call(ctx.fundGate, ctx.sender, ctx.fundRoles, a.op);
      if Token.Balance(Token.Exec(h.rwa, call), account) != Token.Balance(h.rwa, account) {
        Token.BalanceChangeNeedsClearance(h.rwa, call, account);
      }
    } else {
      StepNets(h, ctx, a, account);
      UnnamedNets(ctx.now, Step(h, ctx, a).value.events, account);
    }
  }

  /** Whatever anybody calls, on the hub or on the token, an account that stays frozen
      keeps its fund tokens, and no deposit, mint, redemption or payment names it. */
  lemma {:induction false} FrozenThroughout(h0: State, calls: seq<Call>, account: Address)
    requires account != ZERO_ADDRESS
    requires forall i | 0 <= i < |calls| :: Frozen(calls[i].ctx, account)
    ensures Token.Balance(HubRuns.RunEnd(h0, calls).rwa, account) == Token.Balance(h0.rwa, account)
    ensures forall entry <- HubRuns.RunLog(h0, calls) :: !Names(entry.event, account)
  {
    if calls != [] {
      var before, last := calls[..|calls| - 1], calls[|calls| - 1];
      FrozenThroughout(h0, before, account);
      var h := HubRuns.RunEnd(h0, before);
      if Step(h, last.ctx, last.action).Ok? {
        FrozenStep(h, last.ctx, last.action, account);
      }
    }
  }
}
