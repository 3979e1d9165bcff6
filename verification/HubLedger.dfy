/** The hub seen through its event log: which records its events create, change and
    consume, and what must have held when each event was emitted. Every whole-run law
    of the fund is proved here, about justified logs; HubRuns shows that the hub's
    runs produce nothing else. */
module HubLedger {
  import opened Outcomes
  import opened FixedPoint
  import opened MapSums
  import opened Division

  type Id = nat

  /** A Depositor or a Redeemer; the zero record is what an unused id reads as. */
  datatype Record = Record(user: Address, amount: nat, priceId: nat)

  const EMPTY := Record(ZERO_ADDRESS, 0, 0)

  function At(m: map<Id, Record>, id: Id): Record {
    if id in m then m[id] else EMPTY
  }

  /** Writing zeros is the same as deleting. */
  function Put(m: map<Id, Record>, id: Id, r: Record): (m': map<Id, Record>)
    ensures forall k: Id :: At(m', k) == if k == id then r else At(m, k)
  {
    if r == EMPTY then m - {id} else m[id := r]
  }

  function PutTime(m: map<Id, nat>, id: Id, t: nat): (m': map<Id, nat>)
    ensures forall k: Id :: Get(m', k) == if k == id then t else Get(m, k)
  {
    if t == 0 then m - {id} else m[id := t]
  }

  function Amounts(m: map<Id, Record>): map<Id, nat> {
    map id | id in m :: m[id].amount
  }

  /** The total amount in live records. */
  ghost function Live(m: map<Id, Record>): nat {
    SumOver(Amounts(m))
  }

  lemma LivePut(m: map<Id, Record>, id: Id, r: Record)
    ensures Live(Put(m, id, r)) == Live(m) - At(m, id).amount + r.amount
  {
    assert Get(Amounts(m), id) == At(m, id).amount;
    if r == EMPTY {
      assert Amounts(Put(m, id, r)) == Amounts(m) - {id};
      SumWithout(Amounts(m), id);
    } else {
      assert Amounts(Put(m, id, r)) == Amounts(m)[id := r.amount];
      SumPut(Amounts(m), id, r.amount);
    }
  }

  // ------------------------------------------------------------- events and what they do

  datatype Core = Core(
    deposits: map<Id, Record>,
    redemptions: map<Id, Record>,
    claimableAt: map<Id, nat>,
    subscriptionCounter: nat,
    redemptionCounter: nat,
    supply: int)

  datatype Event =
    | MintRequested(user: Address, depositId: Id, amountDeposited: nat, amountAfterFee: nat, feeAmount: nat)
    | DepositProofAdded(txHash: Id, user: Address, amountAfterFee: nat, feeAmount: nat, timestamp: nat)
    | PriceIdSetForDeposit(depositId: Id, priceId: nat)
    | ClaimableTimestampSet(claimTimestamp: nat, depositId: Id)
    | MintCompleted(user: Address, depositId: Id, rwaAmountOut: nat, collateralAmount: nat, price: nat, priceId: nat)
    | RedemptionRequested(user: Address, redemptionId: Id, rwaAmountIn: nat)
    | RedemptionRequestedServicedOffChain(user: Address, redemptionId: Id, rwaAmountIn: nat, destination: nat)
    | PriceIdSetForRedemption(redemptionId: Id, priceId: nat)
    | RedemptionCompleted(user: Address, redemptionId: Id, rwaAmountRequested: nat, collateralAmountReturned: nat, price: nat)
    | DepositorOverwritten(depositId: Id, old_: Record, new_: Record)
    | RedeemerOverwritten(redemptionId: Id, old_: Record, new_: Record)
    | FundTokenCalled(supplyChange: int)
    | OtherEvent

  /** Events are stamped with the time of their block. */
  datatype Entry = Entry(now: nat, event: Event)

  function Apply(c: Core, e: Event): Core {
    match e
    case MintRequested(user, id, _, afterFee, _) =>
      c.(deposits := Put(c.deposits, id, Record(user, afterFee, 0)), subscriptionCounter := id + 1)
    case DepositProofAdded(id, user, afterFee, _, _) =>
      c.(deposits := Put(c.deposits, id, Record(user, afterFee, 0)))
    case PriceIdSetForDeposit(id, priceId) =>
      c.(deposits := Put(c.deposits, id, At(c.deposits, id).(priceId := priceId)))
    case ClaimableTimestampSet(t, id) =>
      c.(claimableAt := PutTime(c.claimableAt, id, t))
    case MintCompleted(_, id, out, _, _, _) =>
      c.(deposits := Put(c.deposits, id, EMPTY), claimableAt := PutTime(c.claimableAt, id, 0), supply := c.supply + out)
    case RedemptionRequested(user, id, amount) =>
      c.(redemptions := Put(c.redemptions, id, Record(user, amount, 0)), redemptionCounter := id + 1,
         supply := c.supply - amount)
    case RedemptionRequestedServicedOffChain(_, id, amount, _) =>
      c.(redemptionCounter := id + 1, supply := c.supply - amount)
    case PriceIdSetForRedemption(id, priceId) =>
      c.(redemptions := Put(c.redemptions, id, At(c.redemptions, id).(priceId := priceId)))
    case RedemptionCompleted(_, id, _, _, _) =>
      c.(redemptions := Put(c.redemptions, id, EMPTY))
    case DepositorOverwritten(id, _, r) => c.(deposits := Put(c.deposits, id, r))
    case RedeemerOverwritten(id, _, r) => c.(redemptions := Put(c.redemptions, id, r))
    case FundTokenCalled(change) => c.(supply := c.supply + change)
    case OtherEvent => c
  }

  /** What must hold for the event to be emitted. */
  predicate Guard(scale: nat, c: Core, entry: Entry)
    requires scale > 0
  {
    match entry.event
    case MintRequested(user, id, amount, afterFee, fee) =>
      user != ZERO_ADDRESS && id == c.subscriptionCounter && amount == afterFee + fee
    case DepositProofAdded(id, _, _, _, _) => At(c.deposits, id).user == ZERO_ADDRESS
    case PriceIdSetForDeposit(id, _) =>
      At(c.deposits, id).user != ZERO_ADDRESS && At(c.deposits, id).priceId == 0
    case ClaimableTimestampSet(t, _) => t >= entry.now
    case MintCompleted(user, id, out, amount, price, priceId) =>
      && At(c.deposits, id) == Record(user, amount, priceId)
      && user != ZERO_ADDRESS && priceId != 0
      && 0 < Get(c.claimableAt, id) <= entry.now
      && price != 0 && out == Minted(scale, amount, price)
    case RedemptionRequested(user, id, _) => user != ZERO_ADDRESS && id == c.redemptionCounter
    case RedemptionRequestedServicedOffChain(_, id, _, _) => id == c.redemptionCounter
    case PriceIdSetForRedemption(id, _) => At(c.redemptions, id).priceId == 0
    case RedemptionCompleted(user, id, burned, returned, price) =>
      && user != ZERO_ADDRESS
      && At(c.redemptions, id).user == user && At(c.redemptions, id).amount == burned
      && At(c.redemptions, id).priceId != 0
      && returned <= Redeemed(scale, burned, price)
    case DepositorOverwritten(id, old_, _) => old_ == At(c.deposits, id)
    case RedeemerOverwritten(id, old_, _) => old_ == At(c.redemptions, id)
    case FundTokenCalled(_) => true
    case OtherEvent => true
  }

  function Replay(c: Core, log: seq<Entry>): Core {
    if log == [] then c else Apply(Replay(c, log[..|log| - 1]), log[|log| - 1].event)
  }

  predicate Justified(scale: nat, c: Core, log: seq<Entry>)
    requires scale > 0
  {
    log == [] ||
    (var before := log[..|log| - 1];
     Justified(scale, c, before) && Guard(scale, Replay(c, before), log[|log| - 1]))
  }

  /** Logs compose: what follows a log starts where its replay ends. */
  lemma {:induction false} ReplayConcat(scale: nat, c: Core, a: seq<Entry>, b: seq<Entry>)
    requires scale > 0
    ensures Replay(c, a + b) == Replay(Replay(c, a), b)
    ensures Justified(scale, c, a + b) <==> Justified(scale, c, a) && Justified(scale, Replay(c, a), b)
  {
    if b == [] {
      assert a + b == a;
    } else {
      var b' := b[..|b| - 1];
      assert (a + b)[..|a + b| - 1] == a + b';
      ReplayConcat(scale, c, a, b');
    }
  }

  /** Any prefix of a justified log is justified, and its next entry is guarded there. */
  lemma {:induction false} PrefixJustified(scale: nat, c: Core, log: seq<Entry>, k: nat)
    requires scale > 0 && k < |log| && Justified(scale, c, log)
    ensures Justified(scale, c, log[..k]) && Guard(scale, Replay(c, log[..k]), log[k])
  {
    ReplayConcat(scale, c, log[..k + 1], log[k + 1..]);
    assert log == log[..k + 1] + log[k + 1..];
    assert log[..k + 1][..k] == log[..k];
  }

  // ------------------------------------------------------------- totals of a log

  /** Sums over a log; `paid` counts the collateral due with the fee still in it. */
  datatype Books = Books(
    deposited: nat, depositsAdjusted: int, depositsDisplaced: nat, consumed: nat, minted: nat, mints: nat,
    burned: nat, redemptionsAdjusted: int, redemptionsDisplaced: nat, redeemed: nat, paid: nat, redeems: nat,
    offChain: nat, outside: int)

  const NOTHING := Books(0, 0, 0, 0, 0, 0, 0, 0, 0, 0, 0, 0, 0, 0)

  function Post(scale: nat, c: Core, b: Books, e: Event): Books
    requires scale > 0
  {
    match e
    case MintRequested(_, id, _, afterFee, _) =>
      b.(deposited := b.deposited + afterFee, depositsDisplaced := b.depositsDisplaced + At(c.deposits, id).amount)
    case DepositProofAdded(id, _, afterFee, _, _) =>
      b.(deposited := b.deposited + afterFee, depositsDisplaced := b.depositsDisplaced + At(c.deposits, id).amount)
    case MintCompleted(_, _, out, amount, _, _) =>
      b.(consumed := b.consumed + amount, minted := b.minted + out, mints := b.mints + 1)
    case RedemptionRequested(_, id, amount) =>
      b.(burned := b.burned + amount, redemptionsDisplaced := b.redemptionsDisplaced + At(c.redemptions, id).amount)
    case RedemptionRequestedServicedOffChain(_, _, amount, _) => b.(offChain := b.offChain + amount)
    case RedemptionCompleted(_, _, amount, _, price) =>
      b.(redeemed := b.redeemed + amount, paid := b.paid + Redeemed(scale, amount, price), redeems := b.redeems + 1)
    case DepositorOverwritten(_, old_, new_) =>
      b.(depositsAdjusted := b.depositsAdjusted + new_.amount - old_.amount)
    case RedeemerOverwritten(_, old_, new_) =>
      b.(redemptionsAdjusted := b.redemptionsAdjusted + new_.amount - old_.amount)
    case FundTokenCalled(change) => b.(outside := b.outside + change)
    case _ => b
  }

  function Totals(scale: nat, c: Core, log: seq<Entry>): Books
    requires scale > 0
  {
    if log == [] then NOTHING else
      var before := log[..|log| - 1];
      Post(scale, Replay(c, before), Totals(scale, c, before), log[|log| - 1].event)
  }

  // ------------------------------------------------------------- conservation

  ghost predicate DepositsBalanced(c0: Core, b: Books, c: Core) {
    Live(c.deposits) == Live(c0.deposits) + b.deposited + b.depositsAdjusted - b.depositsDisplaced - b.consumed
  }

  ghost predicate RedemptionsBalanced(c0: Core, b: Books, c: Core) {
    Live(c.redemptions) == Live(c0.redemptions) + b.burned + b.redemptionsAdjusted - b.redemptionsDisplaced - b.redeemed
  }

  ghost predicate SupplyBalanced(c0: Core, b: Books, c: Core) {
    c.supply == c0.supply + b.minted - b.burned - b.offChain + b.outside
  }

  /** The three balance sheets: every unit that came in is live, consumed or displaced. */
  ghost predicate Balanced(c0: Core, b: Books, c: Core) {
    DepositsBalanced(c0, b, c) && RedemptionsBalanced(c0, b, c) && SupplyBalanced(c0, b, c)
  }

  lemma PostKeepsDeposits(scale: nat, c0: Core, b: Books, c: Core, entry: Entry)
    requires scale > 0 && DepositsBalanced(c0, b, c) && Guard(scale, c, entry)
    ensures DepositsBalanced(c0, Post(scale, c, b, entry.event), Apply(c, entry.event))
  {
    match entry.event
    case MintRequested(user, id, _, afterFee, _) => LivePut(c.deposits, id, Record(user, afterFee, 0));
    case DepositProofAdded(id, user, afterFee, _, _) => LivePut(c.deposits, id, Record(user, afterFee, 0));
    case PriceIdSetForDeposit(id, priceId) => LivePut(c.deposits, id, At(c.deposits, id).(priceId := priceId));
    case MintCompleted(_, id, _, _, _, _) => LivePut(c.deposits, id, EMPTY);
    case DepositorOverwritten(id, _, r) => LivePut(c.deposits, id, r);
    case _ =>
  }

  lemma PostKeepsRedemptions(scale: nat, c0: Core, b: Books, c: Core, entry: Entry)
    requires scale > 0 && RedemptionsBalanced(c0, b, c) && Guard(scale, c, entry)
    ensures RedemptionsBalanced(c0, Post(scale, c, b, entry.event), Apply(c, entry.event))
  {
    match entry.event
    case RedemptionRequested(user, id, amount) => LivePut(c.redemptions, id, Record(user, amount, 0));
    case PriceIdSetForRedemption(id, priceId) => LivePut(c.redemptions, id, At(c.redemptions, id).(priceId := priceId));
    case RedemptionCompleted(_, id, _, _, _) => LivePut(c.redemptions, id, EMPTY);
    case RedeemerOverwritten(id, _, r) => LivePut(c.redemptions, id, r);
    case _ =>
  }

  lemma PostKeepsSupply(scale: nat, c0: Core, b: Books, c: Core, e: Event)
    requires scale > 0 && SupplyBalanced(c0, b, c)
    ensures SupplyBalanced(c0, Post(scale, c, b, e), Apply(c, e))
  {
  }

  lemma {:induction false} Conservation(scale: nat, c0: Core, log: seq<Entry>)
    requires scale > 0 && Justified(scale, c0, log)
    ensures Balanced(c0, Totals(scale, c0, log), Replay(c0, log))
  {
    if log != [] {
      var before := log[..|log| - 1];
      Conservation(scale, c0, before);
      var b, c := Totals(scale, c0, before), Replay(c0, before);
      PostKeepsDeposits(scale, c0, b, c, log[|log| - 1]);
      PostKeepsRedemptions(scale, c0, b, c, log[|log| - 1]);
      PostKeepsSupply(scale, c0, b, c, log[|log| - 1].event);
    }
  }

  // ------------------------------------------------------------- when nothing is displaced

  ghost predicate NoOverwrites(log: seq<Entry>) {
    forall i | 0 <= i < |log| :: !log[i].event.DepositorOverwritten? && !log[i].event.RedeemerOverwritten?
  }

  /** Ids not handed out yet hold no user and no amount (a price id may be preset). */
  ghost predicate UnusedRedemptionsEmpty(c: Core) {
    forall id: Id | id >= c.redemptionCounter :: At(c.redemptions, id).user == ZERO_ADDRESS && At(c.redemptions, id).amount == 0
  }

  lemma EventKeepsUnusedEmpty(scale: nat, c: Core, b: Books, entry: Entry)
    requires scale > 0 && Guard(scale, c, entry) && UnusedRedemptionsEmpty(c)
    requires !entry.event.DepositorOverwritten? && !entry.event.RedeemerOverwritten?
    ensures UnusedRedemptionsEmpty(Apply(c, entry.event))
    ensures var b' := Post(scale, c, b, entry.event);
            && b'.redemptionsDisplaced == b.redemptionsDisplaced
            && b'.redemptionsAdjusted == b.redemptionsAdjusted && b'.depositsAdjusted == b.depositsAdjusted
  {
  }

  /** Without overwriting, a new redemption never lands on a live one. */
  lemma {:induction false} RedemptionsNeverDisplaced(scale: nat, c0: Core, log: seq<Entry>)
    requires scale > 0 && Justified(scale, c0, log) && NoOverwrites(log) && UnusedRedemptionsEmpty(c0)
    ensures UnusedRedemptionsEmpty(Replay(c0, log))
    ensures Totals(scale, c0, log).redemptionsDisplaced == 0
    ensures Totals(scale, c0, log).redemptionsAdjusted == Totals(scale, c0, log).depositsAdjusted == 0
  {
    if log != [] {
      var before := log[..|log| - 1];
      RedemptionsNeverDisplaced(scale, c0, before);
      EventKeepsUnusedEmpty(scale, Replay(c0, before), Totals(scale, c0, before), log[|log| - 1]);
    }
  }

  /** Proofs name a user and a hash that no sequential id will equal. */
  ghost predicate ProofsApart(log: seq<Entry>, lastId: nat) {
    forall i | 0 <= i < |log| && log[i].event.DepositProofAdded? ::
      log[i].event.user != ZERO_ADDRESS && log[i].event.txHash >= lastId
  }

  ghost predicate UnusedDepositsEmpty(c: Core, lastId: nat) {
    && (forall id: Id | c.subscriptionCounter <= id < lastId :: At(c.deposits, id) == EMPTY)
    && (forall id: Id :: At(c.deposits, id).user == ZERO_ADDRESS ==> At(c.deposits, id).amount == 0)
  }

  lemma EventLeavesUnusedEmpty(scale: nat, c: Core, entry: Entry, lastId: nat)
    requires scale > 0 && Guard(scale, c, entry) && UnusedDepositsEmpty(c, lastId)
    requires !entry.event.DepositorOverwritten?
    requires entry.event.DepositProofAdded? ==> entry.event.user != ZERO_ADDRESS && entry.event.txHash >= lastId
    requires c.subscriptionCounter < lastId || !entry.event.MintRequested?
    ensures UnusedDepositsEmpty(Apply(c, entry.event), lastId)
    ensures forall b: Books :: Post(scale, c, b, entry.event).depositsDisplaced == b.depositsDisplaced
  {
  }

  /** With such proofs and without overwriting, no deposit is ever displaced. */
  lemma {:induction false} DepositsNeverDisplaced(scale: nat, c0: Core, log: seq<Entry>, lastId: nat)
    requires scale > 0 && Justified(scale, c0, log) && NoOverwrites(log) && ProofsApart(log, lastId)
    requires UnusedDepositsEmpty(c0, lastId)
    requires Replay(c0, log).subscriptionCounter <= lastId
    ensures UnusedDepositsEmpty(Replay(c0, log), lastId)
    ensures Totals(scale, c0, log).depositsDisplaced == 0
  {
    if log != [] {
      var before := log[..|log| - 1];
      CountersAdvance(scale, c0, log);
      DepositsNeverDisplaced(scale, c0, before, lastId);
      EventLeavesUnusedEmpty(scale, Replay(c0, before), log[|log| - 1], lastId);
    }
  }

  /** The amount in the record that a new deposit writes over. */
  function Displaced(c: Core, e: Event): nat {
    match e
    case MintRequested(_, id, _, _, _) => At(c.deposits, id).amount
    case DepositProofAdded(id, _, _, _, _) => At(c.deposits, id).amount
    case _ => 0
  }

  lemma PostDisplaces(scale: nat, c: Core, b: Books, e: Event)
    requires scale > 0
    ensures Post(scale, c, b, e).depositsDisplaced == b.depositsDisplaced + Displaced(c, e)
  {
  }

  /** Displaced amounts add up along a log. */
  lemma {:induction false} DisplacedConcat(scale: nat, c: Core, a: seq<Entry>, b: seq<Entry>)
    requires scale > 0
    ensures Totals(scale, c, a + b).depositsDisplaced
            == Totals(scale, c, a).depositsDisplaced + Totals(scale, Replay(c, a), b).depositsDisplaced
  {
    if b == [] {
      assert a + b == a;
    } else {
      var b' := b[..|b| - 1];
      assert (a + b)[..|a + b| - 1] == a + b';
      var e := b[|b| - 1].event;
      ReplayConcat(scale, c, a, b');
      DisplacedConcat(scale, c, a, b');
      PostDisplaces(scale, Replay(c, a + b'), Totals(scale, c, a + b'), e);
      PostDisplaces(scale, Replay(Replay(c, a), b'), Totals(scale, Replay(c, a), b'), e);
    }
  }

  /** What an event counts as paid. */
  function PaidBy(scale: nat, e: Event): nat
    requires scale > 0
  {
    if e.RedemptionCompleted? then Redeemed(scale, e.rwaAmountRequested, e.price) else 0
  }

  lemma PostPays(scale: nat, c: Core, b: Books, e: Event)
    requires scale > 0
    ensures Post(scale, c, b, e).paid == b.paid + PaidBy(scale, e)
  {
  }

  /** What was paid adds up along a log. */
  lemma {:induction false} PaidConcat(scale: nat, c: Core, a: seq<Entry>, b: seq<Entry>)
    requires scale > 0
    ensures Totals(scale, c, a + b).paid == Totals(scale, c, a).paid + Totals(scale, Replay(c, a), b).paid
  {
    if b == [] {
      assert a + b == a;
    } else {
      var b' := b[..|b| - 1];
      assert (a + b)[..|a + b| - 1] == a + b';
      var e := b[|b| - 1].event;
      PaidConcat(scale, c, a, b');
      PostPays(scale, Replay(c, a + b'), Totals(scale, c, a + b'), e);
      PostPays(scale, Replay(Replay(c, a), b'), Totals(scale, Replay(c, a), b'), e);
    }
  }

  lemma CountersAdvance(scale: nat, c0: Core, log: seq<Entry>)
    requires scale > 0 && Justified(scale, c0, log) && log != []
    ensures Replay(c0, log[..|log| - 1]).subscriptionCounter <= Replay(c0, log).subscriptionCounter
    ensures Replay(c0, log[..|log| - 1]).redemptionCounter <= Replay(c0, log).redemptionCounter
  {
  }

  // ------------------------------------------------------------- exchange bounds

  /** Every mint used a price of at least q, and every redemption one of at most q. */
  ghost predicate PricesAround(log: seq<Entry>, q: nat) {
    forall i | 0 <= i < |log| ::
      && (log[i].event.MintCompleted? ==> log[i].event.price >= q)
      && (log[i].event.RedemptionCompleted? ==> log[i].event.price <= q)
  }

  ghost predicate PricesExactly(log: seq<Entry>, p: nat) {
    forall i | 0 <= i < |log| && (log[i].event.MintCompleted? || log[i].event.RedemptionCompleted?) ::
      log[i].event.price == p
  }

  lemma MintWorth(scale: nat, amount: nat, price: nat, q: nat)
    requires scale > 0 && price > 0 && q <= price
    ensures Minted(scale, amount, price) * q <= amount * scale
    ensures q == price ==> amount * scale <= Minted(scale, amount, price) * q + q - 1
  {
    FloorSpec(amount * scale, price);
    MulMono(q, price, Minted(scale, amount, price));
  }

  lemma RedemptionWorth(scale: nat, amount: nat, price: nat, q: nat)
    requires scale > 0 && price <= q
    ensures Redeemed(scale, amount, price) * scale <= amount * q
    ensures q == price ==> amount * q <= Redeemed(scale, amount, price) * scale + scale - 1
  {
    FloorSpec(amount * price, scale);
    MulMono(price, q, amount);
  }

  ghost predicate ExchangeBounded(scale: nat, b: Books, q: nat) {
    b.minted * q <= b.consumed * scale && b.paid * scale <= b.redeemed * q
  }

  lemma ExchangeOfEvent(scale: nat, c: Core, b: Books, entry: Entry, q: nat)
    requires scale > 0 && Guard(scale, c, entry) && ExchangeBounded(scale, b, q)
    requires entry.event.MintCompleted? ==> entry.event.price >= q
    requires entry.event.RedemptionCompleted? ==> entry.event.price <= q
    ensures ExchangeBounded(scale, Post(scale, c, b, entry.event), q)
  {
    var e := entry.event;
    if e.MintCompleted? {
      MintWorth(scale, e.collateralAmount, e.price, q);
      AddTerms(b.minted, e.rwaAmountOut, q);
      AddTerms(b.consumed, e.collateralAmount, scale);
    } else if e.RedemptionCompleted? {
      RedemptionWorth(scale, e.rwaAmountRequested, e.price, q);
      AddTerms(b.paid, Redeemed(scale, e.rwaAmountRequested, e.price), scale);
      AddTerms(b.redeemed, e.rwaAmountRequested, q);
    }
  }

  /** Mints give out at most what they consume is worth at q, and redemptions pay at
      most what they take in is worth at q. */
  lemma {:induction false} ExchangeBounds(scale: nat, c0: Core, log: seq<Entry>, q: nat)
    requires scale > 0 && Justified(scale, c0, log) && PricesAround(log, q)
    ensures ExchangeBounded(scale, Totals(scale, c0, log), q)
  {
    if log != [] {
      var before := log[..|log| - 1];
      ExchangeBounds(scale, c0, before, q);
      ExchangeOfEvent(scale, Replay(c0, before), Totals(scale, c0, before), log[|log| - 1], q);
    }
  }

  lemma DustOfEvent(scale: nat, c: Core, b: Books, entry: Entry, p: nat)
    requires scale > 0 && Guard(scale, c, entry)
    requires entry.event.MintCompleted? || entry.event.RedemptionCompleted? ==> entry.event.price == p
    requires DustBounded(scale, b, p)
    ensures DustBounded(scale, Post(scale, c, b, entry.event), p)
  {
    var e, b' := entry.event, Post(scale, c, b, entry.event);
    if e.MintCompleted? {
      MintWorth(scale, e.collateralAmount, p, p);
      AddTerms(b.consumed, e.collateralAmount, scale);
      AddTerms(b.minted, e.rwaAmountOut, p);
      AddTerms(b.mints, 1, p - 1);
    } else if e.RedemptionCompleted? {
      var due := Redeemed(scale, e.rwaAmountRequested, p);
      RedemptionWorth(scale, e.rwaAmountRequested, p, p);
      AddTerms(b.paid, due, scale);
      AddTerms(b.redeemed, e.rwaAmountRequested, p);
      AddTerms(b.redeems, 1, scale - 1);
    }
  }

  lemma AddTerms(x: int, y: int, k: int)
    ensures (x + y) * k == x * k + y * k
  {
  }

  /** The rounding loss is below one price unit a mint and one scale unit a
      redemption, and never negative. */
  ghost predicate DustBounded(scale: nat, b: Books, p: nat) {
    && 0 <= b.consumed * scale - b.minted * p <= b.mints * (p - 1)
    && 0 <= b.redeemed * p - b.paid * scale <= b.redeems * (scale - 1)
  }

  lemma {:induction false} DustBounds(scale: nat, c0: Core, log: seq<Entry>, p: nat)
    requires scale > 0 && Justified(scale, c0, log) && PricesExactly(log, p)
    ensures DustBounded(scale, Totals(scale, c0, log), p)
  {
    if log != [] {
      var before := log[..|log| - 1];
      DustBounds(scale, c0, before, p);
      DustOfEvent(scale, Replay(c0, before), Totals(scale, c0, before), log[|log| - 1], p);
    }
  }

  // ------------------------------------------------------------- solvency

  /** What the run started with, valued at q: pending deposits at scale, tokens and
      pending redemptions at q. */
  ghost function Value(scale: nat, q: nat, c: Core): int {
    Live(c.deposits) * scale + c.supply * q + Live(c.redemptions) * q
  }

  /** Whatever was overwritten or minted elsewhere is accounted for explicitly. */
  ghost function Adjustments(scale: nat, q: nat, b: Books): int {
    b.depositsAdjusted * scale + b.redemptionsAdjusted * q + b.outside * q
  }

  /** The balance sheets combined into one equation at price q. */
  lemma ValueEquation(scale: nat, c0: Core, log: seq<Entry>, q: nat)
    requires scale > 0 && Justified(scale, c0, log)
    ensures var b := Totals(scale, c0, log);
            Value(scale, q, Replay(c0, log)) + b.paid * scale + b.offChain * q
            == Value(scale, q, c0) + b.deposited * scale + Adjustments(scale, q, b)
               - (b.consumed * scale - b.minted * q) - (b.redeemed * q - b.paid * scale)
               - b.depositsDisplaced * scale - b.redemptionsDisplaced * q
  {
    Conservation(scale, c0, log);
    var b, c := Totals(scale, c0, log), Replay(c0, log);
    ScaleUp5(Live(c.deposits), Live(c0.deposits), b.deposited, b.depositsAdjusted, b.depositsDisplaced, b.consumed, scale);
    ScaleUp5(Live(c.redemptions), Live(c0.redemptions), b.burned, b.redemptionsAdjusted, b.redemptionsDisplaced, b.redeemed, q);
    ScaleUp5(c.supply, c0.supply, b.minted, b.outside, b.burned, b.offChain, q);
  }

  lemma ScaleUp5(x: int, x0: int, a: int, b: int, c: int, d: int, k: int)
    requires x == x0 + a + b - c - d
    ensures x * k == x0 * k + a * k + b * k - c * k - d * k
  {
  }

  /** Solvency: what is still owed at q plus all that was paid out never exceeds what
      was put in, however prices moved around q. */
  lemma Solvency(scale: nat, c0: Core, log: seq<Entry>, q: nat)
    requires scale > 0 && Justified(scale, c0, log) && PricesAround(log, q)
    ensures var b := Totals(scale, c0, log);
            Value(scale, q, Replay(c0, log)) + b.paid * scale + b.offChain * q
            <= Value(scale, q, c0) + b.deposited * scale + Adjustments(scale, q, b)
  {
    ValueEquation(scale, c0, log, q);
    ExchangeBounds(scale, c0, log, q);
    MulMono(0, Totals(scale, c0, log).depositsDisplaced, scale);
    MulMono(0, Totals(scale, c0, log).redemptionsDisplaced, q);
  }

  // ------------------------------------------------------------- histories

  predicate CreatesDeposit(e: Event, id: Id) {
    || (e.MintRequested? && e.depositId == id)
    || (e.DepositProofAdded? && e.txHash == id)
    || (e.DepositorOverwritten? && e.depositId == id)
  }

  /** The record an event of that kind writes. */
  function Created(e: Event): Record
    requires e.MintRequested? || e.DepositProofAdded? || e.DepositorOverwritten?
  {
    match e
    case MintRequested(user, _, _, afterFee, _) => Record(user, afterFee, 0)
    case DepositProofAdded(_, user, afterFee, _, _) => Record(user, afterFee, 0)
    case DepositorOverwritten(_, _, r) => r
  }

  predicate Mints(e: Event, id: Id) {
    e.MintCompleted? && e.depositId == id
  }

  /** From entry i on, nothing recreates or mints deposit `id`. */
  ghost predicate Untouched(log: seq<Entry>, i: int, id: Id) {
    forall k | 0 <= k < |log| && i <= k :: !CreatesDeposit(log[k].event, id) && !Mints(log[k].event, id)
  }

  /** A live deposit goes back to one creation that nothing has consumed since. */
  lemma {:induction false} DepositOrigin(scale: nat, c0: Core, log: seq<Entry>, id: Id) returns (i: nat)
    requires scale > 0 && Justified(scale, c0, log) && At(c0.deposits, id) == EMPTY
    requires At(Replay(c0, log).deposits, id) != EMPTY
    ensures i < |log| && CreatesDeposit(log[i].event, id) && Untouched(log, i + 1, id)
    ensures var r := At(Replay(c0, log).deposits, id);
            Created(log[i].event).user == r.user && Created(log[i].event).amount == r.amount
  {
    var last := log[|log| - 1].event;
    if CreatesDeposit(last, id) {
      i := |log| - 1;
    } else {
      i := DepositOrigin(scale, c0, log[..|log| - 1], id);
      assert forall k | 0 <= k < |log| - 1 :: log[k] == log[..|log| - 1][k];
    }
  }

  /** Its price id was assigned at or after that creation. */
  lemma {:induction false} PriceOrigin(scale: nat, c0: Core, log: seq<Entry>, id: Id) returns (i: nat, j: nat)
    requires scale > 0 && Justified(scale, c0, log) && At(c0.deposits, id) == EMPTY
    requires At(Replay(c0, log).deposits, id).priceId != 0
    ensures i <= j < |log| && CreatesDeposit(log[i].event, id) && Untouched(log, i + 1, id)
    ensures var r := At(Replay(c0, log).deposits, id);
            && Created(log[i].event).user == r.user && Created(log[i].event).amount == r.amount
            && (if i < j then log[j].event == PriceIdSetForDeposit(id, r.priceId)
                else Created(log[i].event).priceId == r.priceId)
  {
    var last := log[|log| - 1].event;
    if CreatesDeposit(last, id) {
      i, j := |log| - 1, |log| - 1;
    } else if last.PriceIdSetForDeposit? && last.depositId == id {
      i := DepositOrigin(scale, c0, log, id);
      j := |log| - 1;
    } else {
      i, j := PriceOrigin(scale, c0, log[..|log| - 1], id);
      assert forall k | 0 <= k < |log| - 1 :: log[k] == log[..|log| - 1][k];
    }
  }

  /** A claim time was set after the last mint of the id. */
  lemma {:induction false} ClaimTimeOrigin(scale: nat, c0: Core, log: seq<Entry>, id: Id) returns (t: nat)
    requires scale > 0 && Justified(scale, c0, log) && Get(c0.claimableAt, id) == 0
    requires Get(Replay(c0, log).claimableAt, id) != 0
    ensures t < |log| && log[t].event == ClaimableTimestampSet(Get(Replay(c0, log).claimableAt, id), id)
    ensures forall k | t < k < |log| :: !Mints(log[k].event, id)
  {
    var last := log[|log| - 1].event;
    if last.ClaimableTimestampSet? && last.depositId == id {
      t := |log| - 1;
    } else {
      t := ClaimTimeOrigin(scale, c0, log[..|log| - 1], id);
      assert forall k | 0 <= k < |log| - 1 :: log[k] == log[..|log| - 1][k];
    }
  }

  /** Mint safety: each completed mint consumes one creation of its id, after which its
      price id was assigned and which no other mint used, and a claim time not after
      the mint had been set since the last mint of the id. The mint pays the created
      user for the created amount. */
  lemma MintSafety(scale: nat, c0: Core, log: seq<Entry>, k: nat) returns (i: nat, j: nat, t: nat)
    requires scale > 0 && Justified(scale, c0, log) && c0.deposits == map[] && c0.claimableAt == map[]
    requires k < |log| && log[k].event.MintCompleted?
    ensures var mint := log[k].event;
            && i <= j < k && t < k
            && CreatesDeposit(log[i].event, mint.depositId)
            && Created(log[i].event).user == mint.user && Created(log[i].event).amount == mint.collateralAmount
            && (forall m | i < m < k :: !CreatesDeposit(log[m].event, mint.depositId) && !Mints(log[m].event, mint.depositId))
            && mint.priceId != 0
            && (if i < j then log[j].event == PriceIdSetForDeposit(mint.depositId, mint.priceId)
                else Created(log[i].event).priceId == mint.priceId)
            && log[t].event.ClaimableTimestampSet? && log[t].event.depositId == mint.depositId
            && 0 < log[t].event.claimTimestamp <= log[k].now
            && (forall m | t < m < k :: !Mints(log[m].event, mint.depositId))
            && mint.price != 0 && mint.rwaAmountOut == Minted(scale, mint.collateralAmount, mint.price)
  {
    PrefixJustified(scale, c0, log, k);
    var id := log[k].event.depositId;
    var before := log[..k];
    i, j := PriceOrigin(scale, c0, before, id);
    t := ClaimTimeOrigin(scale, c0, before, id);
    assert forall m | 0 <= m < k :: log[m] == before[m];
  }

  function CountMints(log: seq<Entry>, id: Id): nat {
    if log == [] then 0 else
      CountMints(log[..|log| - 1], id) + if Mints(log[|log| - 1].event, id) then 1 else 0
  }

  function CountCreations(log: seq<Entry>, id: Id): nat {
    if log == [] then 0 else
      CountCreations(log[..|log| - 1], id) + if CreatesDeposit(log[|log| - 1].event, id) then 1 else 0
  }

  /** No id is minted more often than it was created. */
  lemma {:induction false} MintsAtMostCreations(scale: nat, c0: Core, log: seq<Entry>, id: Id)
    requires scale > 0 && Justified(scale, c0, log) && c0.deposits == map[]
    ensures CountMints(log, id) + (if At(Replay(c0, log).deposits, id) != EMPTY then 1 else 0) <= CountCreations(log, id)
  {
    if log != [] {
      MintsAtMostCreations(scale, c0, log[..|log| - 1], id);
    }
  }

  // ------------------------------------------------------------- redemption ids

  predicate RequestsRedemption(e: Event) {
    e.RedemptionRequested? || e.RedemptionRequestedServicedOffChain?
  }

  lemma {:induction false} RequestIdsBelowCounter(scale: nat, c0: Core, log: seq<Entry>)
    requires scale > 0 && Justified(scale, c0, log)
    ensures c0.redemptionCounter <= Replay(c0, log).redemptionCounter
    ensures forall i | 0 <= i < |log| && RequestsRedemption(log[i].event) ::
              c0.redemptionCounter <= log[i].event.redemptionId < Replay(c0, log).redemptionCounter
  {
    if log != [] {
      var before := log[..|log| - 1];
      RequestIdsBelowCounter(scale, c0, before);
      assert forall i | 0 <= i < |log| - 1 :: log[i] == before[i];
    }
  }

  /** On-chain and off-chain requests share one strictly increasing sequence of ids. */
  lemma RequestIdsIncrease(scale: nat, c0: Core, log: seq<Entry>, i: nat, j: nat)
    requires scale > 0 && Justified(scale, c0, log) && i < j < |log|
    requires RequestsRedemption(log[i].event) && RequestsRedemption(log[j].event)
    ensures log[i].event.redemptionId < log[j].event.redemptionId
  {
    PrefixJustified(scale, c0, log, j);
    RequestIdsBelowCounter(scale, c0, log[..j]);
    assert log[..j][i] == log[i];
  }

  predicate Pays(e: Event, id: Id) {
    e.RedemptionCompleted? && e.redemptionId == id
  }

  function CountPayments(log: seq<Entry>, id: Id): nat {
    if log == [] then 0 else
      CountPayments(log[..|log| - 1], id) + if Pays(log[|log| - 1].event, id) then 1 else 0
  }

  /** Id is pending, or has not been handed out yet. */
  predicate Unpaid(c: Core, id: Id) {
    At(c.redemptions, id).user != ZERO_ADDRESS || id >= c.redemptionCounter
  }

  lemma EventPays(scale: nat, c: Core, entry: Entry, id: Id)
    requires scale > 0 && Guard(scale, c, entry) && !entry.event.RedeemerOverwritten?
    ensures Pays(entry.event, id) ==> Unpaid(c, id)
    ensures Unpaid(Apply(c, entry.event), id) ==> Unpaid(c, id)
    ensures Pays(entry.event, id) && id < c.redemptionCounter ==> !Unpaid(Apply(c, entry.event), id)
  {
  }

  /** Without overwriting, no redemption is ever paid twice, and one that is pending or
      not yet requested has not been paid. */
  lemma {:induction false} PaidAtMostOnce(scale: nat, c0: Core, log: seq<Entry>, id: Id)
    requires scale > 0 && Justified(scale, c0, log) && NoOverwrites(log) && UnusedRedemptionsEmpty(c0)
    ensures CountPayments(log, id) <= 1
    ensures Unpaid(Replay(c0, log), id) ==> CountPayments(log, id) == 0
  {
    if log != [] {
      var before, last := log[..|log| - 1], log[|log| - 1];
      var c := Replay(c0, before);
      PaidAtMostOnce(scale, c0, before, id);
      RedemptionsNeverDisplaced(scale, c0, before);
      EventPays(scale, c, last, id);
      // an id that pays was handed out: unused ids have no user
      assert Pays(last.event, id) ==> At(c.redemptions, id).user != ZERO_ADDRESS && id < c.redemptionCounter;
    }
  }
}
