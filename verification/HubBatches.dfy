/** Batches: a batch of claims is the same as its claims, in any order for mints, and
    with one fee transfer instead of many for redemptions. */
module HubBatches {
  import opened Outcomes
  import opened FixedPoint
  import opened MapSums
  import opened HubLedger
  import opened Hub
  import HubRuns
  import Token

  /** The same success and value; which error a failure names may differ. */
  ghost predicate Same<T(!new)>(a: Result<T>, b: Result<T>) {
    (a.Ok? <==> b.Ok?) && (a.Ok? ==> a.value == b.value)
  }

  // ------------------------------------------------------------- batches name distinct ids

  predicate Distinct(ids: seq<Id>) {
    forall i, j | 0 <= i < j < |ids| :: ids[i] != ids[j]
  }

  lemma DistinctAndOneMore(ids: seq<Id>, id: Id)
    ensures Distinct(ids + [id]) <==> Distinct(ids) && id !in ids
    ensures forall i: Id :: i in ids + [id] <==> i in ids || i == id
  {
    var more := ids + [id];
    assert more[|ids|] == id;
    assert forall i | 0 <= i < |ids| :: more[i] == ids[i];
  }

  /** A claim needs a record, deletes it, and keeps the others. */
  lemma MintTakesOne(h: State, ctx: Context, id: Id)
    requires ClaimMintOne(h, ctx, id).Ok?
    ensures At(h.deposits, id) != EMPTY
    ensures ClaimMintOne(h, ctx, id).value.hub.deposits == Put(h.deposits, id, EMPTY)
  {
  }

  lemma RedemptionTakesOne(r: Redeeming, ctx: Context, id: Id)
    requires ClaimRedemptionOne(r, ctx, id).Ok?
    ensures At(r.hub.redemptions, id) != EMPTY
    ensures ClaimRedemptionOne(r, ctx, id).value.hub.redemptions == Put(r.hub.redemptions, id, EMPTY)
  {
  }

  /** `after` is `before` without the records of `ids`, which are distinct. */
  ghost predicate Gone(before: map<Id, Record>, ids: seq<Id>, after: map<Id, Record>) {
    Distinct(ids) && forall id: Id :: At(after, id) == if id in ids then EMPTY else At(before, id)
  }

  lemma OneMoreGone(before: map<Id, Record>, ids: seq<Id>, after: map<Id, Record>, id: Id)
    requires Gone(before, ids, after) && At(after, id) != EMPTY
    ensures Gone(before, ids + [id], Put(after, id, EMPTY))
  {
    DistinctAndOneMore(ids, id);
  }

  lemma {:induction false} ClaimedMintsAreGone(h: State, ctx: Context, ids: seq<Id>)
    requires ClaimMints(h, ctx, ids).Ok?
    ensures Gone(h.deposits, ids, ClaimMints(h, ctx, ids).value.hub.deposits)
  {
    if ids != [] {
      var before, id := ids[..|ids| - 1], ids[|ids| - 1];
      ClaimedMintsAreGone(h, ctx, before);
      var h1 := ClaimMints(h, ctx, before).value.hub;
      MintTakesOne(h1, ctx, id);
      OneMoreGone(h.deposits, before, h1.deposits, id);
      assert ids == before + [id];
    }
  }

  lemma {:induction false} ClaimedRedemptionsAreGone(h: State, ctx: Context, ids: seq<Id>)
    requires ClaimRedemptions(h, ctx, ids).Ok?
    ensures Gone(h.redemptions, ids, ClaimRedemptions(h, ctx, ids).value.hub.redemptions)
  {
    if ids != [] {
      var before, id := ids[..|ids| - 1], ids[|ids| - 1];
      ClaimedRedemptionsAreGone(h, ctx, before);
      var r1 := ClaimRedemptions(h, ctx, before).value;
      RedemptionTakesOne(r1, ctx, id);
      OneMoreGone(h.redemptions, before, r1.hub.redemptions, id);
      assert ids == before + [id];
    }
  }

  // ------------------------------------------------------------- mint batches in any order

  /** What a claim mints, and to whom; decided by storage other than the token's. */
  function ClaimTerms(h: State, ctx: Context, id: Id): Result<(Address, nat)> {
    var claimableAt := Get(h.claimableAt, id);
    var _ :- Need(claimableAt != 0, ClaimableTimestampNotSet);
    var _ :- Need(claimableAt <= ctx.now, MintNotYetClaimable);
    var depositor := At(h.deposits, id);
    var _ :- Need(depositor.priceId != 0, PriceIdNotSet);
    var owed :- MintAmountForPrice(h.multiplier, depositor.amount, Get(ctx.prices, depositor.priceId));
    var _ :- Need(ctx.hubIsMinter, MissingRole);
    Ok((depositor.user, owed))
  }

  function Cleared(h: State, id: Id, rwa: Token.Ledger): State {
    h.(deposits := Put(h.deposits, id, EMPTY), claimableAt := PutTime(h.claimableAt, id, 0), rwa := rwa)
  }

  function ClaimHub(h: State, ctx: Context, id: Id): Result<State> {
    var terms :- ClaimTerms(h, ctx, id);
    var rwa :- Token.Mint(h.rwa, ctx.fundGate, h.self, terms.0, terms.1);
    Ok(Cleared(h, id, rwa))
  }

  lemma ClaimOneIsClaimHub(h: State, ctx: Context, id: Id)
    ensures ClaimMintOne(h, ctx, id).Ok? <==> ClaimHub(h, ctx, id).Ok?
    ensures ClaimMintOne(h, ctx, id).Ok? ==> ClaimMintOne(h, ctx, id).value.hub == ClaimHub(h, ctx, id).value
  {
  }

  function BatchHub(h: State, ctx: Context, ids: seq<Id>): Result<State> {
    if ids == [] then Ok(h) else
      var before :- BatchHub(h, ctx, ids[..|ids| - 1]);
      ClaimHub(before, ctx, ids[|ids| - 1])
  }

  lemma {:induction false} ClaimsAreBatchHub(h: State, ctx: Context, ids: seq<Id>)
    ensures ClaimMints(h, ctx, ids).Ok? <==> BatchHub(h, ctx, ids).Ok?
    ensures ClaimMints(h, ctx, ids).Ok? ==> ClaimMints(h, ctx, ids).value.hub == BatchHub(h, ctx, ids).value
  {
    if ids != [] {
      var last := |ids| - 1;
      ClaimsAreBatchHub(h, ctx, ids[..last]);
      if BatchHub(h, ctx, ids[..last]).Ok? {
        ClaimOneIsClaimHub(BatchHub(h, ctx, ids[..last]).value, ctx, ids[last]);
      }
    }
  }

  function MintTwo(l: Token.Ledger, g: Token.Gate, s: Address, a: Address, x: nat, b: Address, y: nat): Result<Token.Ledger> {
    var first :- Token.Mint(l, g, s, a, x);
    Token.Mint(first, g, s, b, y)
  }

  lemma MintTwoExactly(l: Token.Ledger, g: Token.Gate, s: Address, a: Address, x: nat, b: Address, y: nat)
    ensures MintTwo(l, g, s, a, x, b, y).Ok? <==>
            && a != ZERO_ADDRESS && b != ZERO_ADDRESS
            && Token.Hook(g, s, ZERO_ADDRESS, a).Ok? && Token.Hook(g, s, ZERO_ADDRESS, b).Ok?
            && l.supply + x + y <= MAX_UINT256
            && Token.Balance(l, a) + x + (if a == b then y else 0) <= MAX_UINT256
            && Token.Balance(l, b) + y + (if a == b then x else 0) <= MAX_UINT256
    ensures MintTwo(l, g, s, a, x, b, y).Ok? ==>
              MintTwo(l, g, s, a, x, b, y).value == Token.Ledger(
                if a == b then l.balances[a := Token.Balance(l, a) + x + y]
                else l.balances[a := Token.Balance(l, a) + x][b := Token.Balance(l, b) + y],
                l.allowances, l.supply + x + y)
  {
  }

  lemma MintsCommute(l: Token.Ledger, g: Token.Gate, s: Address, a: Address, x: nat, b: Address, y: nat)
    ensures Same(MintTwo(l, g, s, a, x, b, y), MintTwo(l, g, s, b, y, a, x))
  {
    MintTwoExactly(l, g, s, a, x, b, y);
    MintTwoExactly(l, g, s, b, y, a, x);
    if a != b {
      var u, v := Token.Balance(l, a) + x, Token.Balance(l, b) + y;
      assert l.balances[a := u][b := v] == l.balances[b := v][a := u];
    }
  }

  function ClaimTwo(h: State, ctx: Context, a: Id, b: Id): Result<State> {
    var first :- ClaimHub(h, ctx, a);
    ClaimHub(first, ctx, b)
  }

  /** Claiming one id changes no other id's terms. */
  lemma TermsOfOthers(h: State, ctx: Context, a: Id, b: Id, rwa: Token.Ledger)
    requires a != b
    ensures ClaimTerms(Cleared(h, a, rwa), ctx, b) == ClaimTerms(h, ctx, b)
    ensures Cleared(Cleared(h, a, rwa), b, rwa) == Cleared(Cleared(h, b, rwa), a, rwa)
  {
    assert Put(Put(h.deposits, a, EMPTY), b, EMPTY) == Put(Put(h.deposits, b, EMPTY), a, EMPTY);
    assert PutTime(PutTime(h.claimableAt, a, 0), b, 0) == PutTime(PutTime(h.claimableAt, b, 0), a, 0);
  }

  lemma ClaimsCommute(h: State, ctx: Context, a: Id, b: Id)
    ensures Same(ClaimTwo(h, ctx, a, b), ClaimTwo(h, ctx, b, a))
  {
    var ta, tb := ClaimTerms(h, ctx, a), ClaimTerms(h, ctx, b);
    if a != b && ta.Ok? && tb.Ok? {
      MintsCommute(h.rwa, ctx.fundGate, h.self, ta.value.0, ta.value.1, tb.value.0, tb.value.1);
      ClaimTwoIsMintTwo(h, ctx, a, b);
      ClaimTwoIsMintTwo(h, ctx, b, a);
      TermsOfOthers(h, ctx, a, b, h.rwa);
    } else if a != b {
      ClaimTwoNeedsBoth(h, ctx, a, b);
      ClaimTwoNeedsBoth(h, ctx, b, a);
    }
  }

  lemma ClaimTwoNeedsBoth(h: State, ctx: Context, a: Id, b: Id)
    requires a != b && (ClaimTerms(h, ctx, a).Revert? || ClaimTerms(h, ctx, b).Revert?)
    ensures ClaimTwo(h, ctx, a, b).Revert?
  {
    if ClaimHub(h, ctx, a).Ok? {
      TermsOfOthers(h, ctx, a, b, ClaimHub(h, ctx, a).value.rwa);
    }
  }

  lemma ClaimTwoIsMintTwo(h: State, ctx: Context, a: Id, b: Id)
    requires a != b && ClaimTerms(h, ctx, a).Ok? && ClaimTerms(h, ctx, b).Ok?
    ensures var ta, tb := ClaimTerms(h, ctx, a).value, ClaimTerms(h, ctx, b).value;
            var minted := MintTwo(h.rwa, ctx.fundGate, h.self, ta.0, ta.1, tb.0, tb.1);
            && (ClaimTwo(h, ctx, a, b).Ok? <==> minted.Ok?)
            && (minted.Ok? ==> ClaimTwo(h, ctx, a, b).value == Cleared(Cleared(h, a, h.rwa), b, h.rwa).(rwa := minted.value))
  {
    var ta := ClaimTerms(h, ctx, a).value;
    var first := Token.Mint(h.rwa, ctx.fundGate, h.self, ta.0, ta.1);
    if first.Ok? {
      TermsOfOthers(h, ctx, a, b, first.value);
    }
  }

  lemma BatchOfTwoMore(h: State, ctx: Context, before: seq<Id>, a: Id, b: Id)
    ensures var start := BatchHub(h, ctx, before);
            Same(BatchHub(h, ctx, before + [a, b]), if start.Ok? then ClaimTwo(start.value, ctx, a, b) else start)
  {
    var ab := before + [a, b];
    assert ab[..|ab| - 1] == before + [a] && (before + [a])[..|before|] == before;
  }

  lemma SwapLast(h: State, ctx: Context, before: seq<Id>, a: Id, b: Id)
    ensures Same(BatchHub(h, ctx, before + [a, b]), BatchHub(h, ctx, before + [b, a]))
  {
    BatchOfTwoMore(h, ctx, before, a, b);
    BatchOfTwoMore(h, ctx, before, b, a);
    if BatchHub(h, ctx, before).Ok? {
      ClaimsCommute(BatchHub(h, ctx, before).value, ctx, a, b);
    }
  }

  lemma {:induction false} SwapAdjacent(h: State, ctx: Context, before: seq<Id>, a: Id, b: Id, after: seq<Id>)
    ensures Same(BatchHub(h, ctx, before + [a, b] + after), BatchHub(h, ctx, before + [b, a] + after))
    decreases |after|
  {
    if after == [] {
      assert before + [a, b] + after == before + [a, b] && before + [b, a] + after == before + [b, a];
      SwapLast(h, ctx, before, a, b);
    } else {
      var shorter, z := after[..|after| - 1], after[|after| - 1];
      SwapAdjacent(h, ctx, before, a, b, shorter);
      assert before + [a, b] + after == before + [a, b] + shorter + [z];
      assert before + [b, a] + after == before + [b, a] + shorter + [z];
      SameThenSame(h, ctx, before + [a, b] + shorter, before + [b, a] + shorter, z);
    }
  }

  /** One more claim cannot tell two equal batches apart. */
  lemma SameThenSame(h: State, ctx: Context, ids: seq<Id>, ids': seq<Id>, z: Id)
    requires Same(BatchHub(h, ctx, ids), BatchHub(h, ctx, ids'))
    ensures Same(BatchHub(h, ctx, ids + [z]), BatchHub(h, ctx, ids' + [z]))
  {
    assert (ids + [z])[..|ids|] == ids && (ids' + [z])[..|ids'|] == ids';
  }

  lemma {:induction false} MoveToEnd(h: State, ctx: Context, ids: seq<Id>, k: nat)
    requires k < |ids|
    ensures Same(BatchHub(h, ctx, ids), BatchHub(h, ctx, ids[..k] + ids[k + 1..] + [ids[k]]))
    decreases |ids| - k
  {
    if k == |ids| - 1 {
      assert ids[..k] + ids[k + 1..] + [ids[k]] == ids;
    } else {
      var before, a, b, after := ids[..k], ids[k], ids[k + 1], ids[k + 2..];
      assert ids == before + [a, b] + after;
      SwapAdjacent(h, ctx, before, a, b, after);
      var swapped := before + [b, a] + after;
      MoveToEnd(h, ctx, swapped, k + 1);
      assert swapped[..k + 1] + swapped[k + 2..] + [a] == ids[..k] + ids[k + 1..] + [ids[k]];
    }
  }

  /** Where the last element of one order stands in the other, and what is left. */
  lemma TakeOut(ids: seq<Id>, ids': seq<Id>) returns (k: nat)
    requires ids' != [] && multiset(ids) == multiset(ids')
    ensures k < |ids| && ids[k] == ids'[|ids'| - 1]
    ensures multiset(ids[..k] + ids[k + 1..]) == multiset(ids'[..|ids'| - 1])
  {
    var last := |ids'| - 1;
    assert ids' == ids'[..last] + [ids'[last]];
    assert ids'[last] in multiset(ids);
    k :| 0 <= k < |ids| && ids[k] == ids'[last];
    assert ids == ids[..k] + [ids[k]] + ids[k + 1..];
    assert multiset(ids) == multiset(ids[..k] + ids[k + 1..]) + multiset{ids[k]};
    assert multiset(ids') == multiset(ids'[..last]) + multiset{ids[k]};
    assert multiset(ids[..k] + ids[k + 1..]) == multiset(ids) - multiset{ids[k]} == multiset(ids'[..last]);
  }

  lemma {:induction false} AnyOrder(h: State, ctx: Context, ids: seq<Id>, ids': seq<Id>)
    requires multiset(ids) == multiset(ids')
    ensures Same(BatchHub(h, ctx, ids), BatchHub(h, ctx, ids'))
    decreases |ids'|
  {
    if ids' == [] {
      assert |multiset(ids)| == 0;
    } else {
      var last := |ids'| - 1;
      var k := TakeOut(ids, ids');
      var rest := ids[..k] + ids[k + 1..];
      MoveToEnd(h, ctx, ids, k);
      AnyOrder(h, ctx, rest, ids'[..last]);
      SameThenSame(h, ctx, rest, ids'[..last], ids[k]);
      assert ids' == ids'[..last] + [ids[k]];
    }
  }

  /** Whether a mint batch succeeds, and the state it leaves, do not depend on its order;
      and it succeeds only on pairwise distinct ids. */
  lemma ClaimMintAnyOrder(h: State, ctx: Context, ids: seq<Id>, ids': seq<Id>)
    requires multiset(ids) == multiset(ids')
    ensures ClaimMint(h, ctx, ids).Ok? <==> ClaimMint(h, ctx, ids').Ok?
    ensures ClaimMint(h, ctx, ids).Ok? ==>
              ClaimMint(h, ctx, ids).value.hub == ClaimMint(h, ctx, ids').value.hub && Distinct(ids)
  {
    ClaimsAreBatchHub(h, ctx, ids);
    ClaimsAreBatchHub(h, ctx, ids');
    AnyOrder(h, ctx, ids, ids');
    if ClaimMints(h, ctx, ids).Ok? {
      ClaimedMintsAreGone(h, ctx, ids);
    }
  }

  // ------------------------------------------------------------- redemption batches one by one

  /** Each id claimed by a call of its own, with its own fee transfer. */
  function Singles(h: State, ctx: Context, ids: seq<Id>): Result<Effect> {
    if ids == [] then
      var _ :- NotPaused(h.redemptionPaused);
      Ok(Effect(h, []))
    else
      var before :- Singles(h, ctx, ids[..|ids| - 1]);
      var one :- ClaimRedemption(before.hub, ctx, [ids[|ids| - 1]]);
      Ok(Effect(one.hub, before.events + one.events))
  }

  /** A transfer of collateral out of `from` by the hub, at the token. */
  function Out(l: Token.Ledger, self: Address, from: Address, to: Address, amount: nat): Result<Token.Ledger> {
    Token.TransferFrom(l, Token.Open, self, from, to, amount)
  }

  function FeeOut(l: Token.Ledger, self: Address, from: Address, to: Address, fee: nat): Result<Token.Ledger> {
    if fee > 0 then Out(l, self, from, to, fee) else Ok(l)
  }

  /** What the allowance becomes when `amount` of it is used. */
  function Spent(l: Token.Ledger, from: Address, self: Address, amount: nat): map<(Address, Address), nat> {
    if Token.Allowance(l, from, self) == MAX_UINT256 then l.allowances
    else
      var left := Token.Allowance(l, from, self) - amount;
      l.allowances[(from, self) := if left >= 0 then left else 0]
  }

  predicate MayMove(l: Token.Ledger, self: Address, from: Address, to: Address, amount: nat) {
    && from != ZERO_ADDRESS && to != ZERO_ADDRESS
    && (Token.Allowance(l, from, self) == MAX_UINT256 || (self != ZERO_ADDRESS && Token.Allowance(l, from, self) >= amount))
    && Token.Balance(l, from) >= amount
    && Token.Balance(l, to) + amount <= MAX_UINT256
  }

  lemma OutExactly(l: Token.Ledger, self: Address, from: Address, to: Address, amount: nat)
    requires from != to
    ensures Out(l, self, from, to, amount).Ok? <==> MayMove(l, self, from, to, amount)
    ensures Out(l, self, from, to, amount).Ok? ==>
              Out(l, self, from, to, amount).value == Token.Ledger(
                l.balances[from := Token.Balance(l, from) - amount][to := Token.Balance(l, to) + amount],
                Spent(l, from, self, amount), l.supply)
  {
  }

  function FeeThenPay(l: Token.Ledger, self: Address, from: Address, payee: Address, collector: Address, fee: nat, amount: nat)
    : Result<Token.Ledger>
  {
    var l1 :- FeeOut(l, self, from, collector, fee);
    Out(l1, self, from, payee, amount)
  }

  function PayThenFee(l: Token.Ledger, self: Address, from: Address, payee: Address, collector: Address, fee: nat, amount: nat)
    : Result<Token.Ledger>
  {
    var l1 :- Out(l, self, from, payee, amount);
    FeeOut(l1, self, from, collector, fee)
  }

  lemma FeeCommutesWithPayment(l: Token.Ledger, self: Address, from: Address, payee: Address, collector: Address,
                               fee: nat, amount: nat)
    requires Token.Allowance(l, from, self) <= MAX_UINT256
    requires from != payee && from != collector
    ensures Same(FeeThenPay(l, self, from, payee, collector, fee, amount),
                 PayThenFee(l, self, from, payee, collector, fee, amount))
  {
    if fee > 0 {
      assert FeeThenPay(l, self, from, payee, collector, fee, amount) == OutTwice(l, self, from, collector, fee, payee, amount);
      assert PayThenFee(l, self, from, payee, collector, fee, amount) == OutTwice(l, self, from, payee, amount, collector, fee);
      OutsCommute(l, self, from, collector, fee, payee, amount);
    }
  }

  lemma OutsCommute(l: Token.Ledger, self: Address, from: Address, a: Address, x: nat, b: Address, y: nat)
    requires Token.Allowance(l, from, self) <= MAX_UINT256
    requires from != a && from != b
    ensures Same(OutTwice(l, self, from, a, x, b, y), OutTwice(l, self, from, b, y, a, x))
  {
    TwoOutsSucceed(l, self, from, a, x, b, y);
    TwoOutsSucceed(l, self, from, b, y, a, x);
    var ab, ba := OutTwice(l, self, from, a, x, b, y), OutTwice(l, self, from, b, y, a, x);
    if ab.Ok? && ba.Ok? {
      TwoOuts(l, self, from, a, x, b, y);
      TwoOuts(l, self, from, b, y, a, x);
      SameLedger(ab.value, ba.value);
    }
  }

  lemma SameLedger(l: Token.Ledger, l': Token.Ledger)
    requires l.supply == l'.supply && l.allowances == l'.allowances && l.balances.Keys == l'.balances.Keys
    requires forall k: Address :: Token.Balance(l, k) == Token.Balance(l', k)
    ensures l == l'
  {
    assert forall k | k in l.balances :: Token.Balance(l, k) == l.balances[k] && Token.Balance(l', k) == l'.balances[k];
    assert l.balances == l'.balances;
  }

  predicate MayMoveTwice(l: Token.Ledger, self: Address, from: Address, a: Address, x: nat, b: Address, y: nat) {
    && MayMove(l, self, from, a, x) && MayMove(l, self, from, b, y)
    && (Token.Allowance(l, from, self) == MAX_UINT256 || Token.Allowance(l, from, self) >= x + y)
    && Token.Balance(l, from) >= x + y
    && (a == b ==> Token.Balance(l, a) + x + y <= MAX_UINT256)
  }

  /** Two transfers out of one account, in terms of where they started. */
  lemma TwoOutsSucceed(l: Token.Ledger, self: Address, from: Address, a: Address, x: nat, b: Address, y: nat)
    requires from != a && from != b && Token.Allowance(l, from, self) <= MAX_UINT256
    ensures OutTwice(l, self, from, a, x, b, y).Ok? <==> MayMoveTwice(l, self, from, a, x, b, y)
  {
    OutExactly(l, self, from, a, x);
    if Out(l, self, from, a, x).Ok? {
      OutExactly(Out(l, self, from, a, x).value, self, from, b, y);
    }
  }

  lemma TwoOuts(l: Token.Ledger, self: Address, from: Address, a: Address, x: nat, b: Address, y: nat)
    requires from != a && from != b && Token.Allowance(l, from, self) <= MAX_UINT256
    requires OutTwice(l, self, from, a, x, b, y).Ok?
    ensures var two := OutTwice(l, self, from, a, x, b, y).value;
            && two.supply == l.supply
            && two.allowances == Spent(l, from, self, x + y)
            && (forall k: Address :: Token.Balance(two, k) ==
                  Token.Balance(l, k) - (if k == from then x + y else 0)
                  + (if k == a then x else 0) + (if k == b then y else 0))
            && two.balances.Keys == l.balances.Keys + {from, a, b}
  {
    OutExactly(l, self, from, a, x);
    var l1 := Out(l, self, from, a, x).value;
    OutExactly(l1, self, from, b, y);
    if Token.Allowance(l, from, self) != MAX_UINT256 {
      assert Spent(l1, from, self, y) == Spent(l, from, self, x + y);
    }
  }

  function OutTwice(l: Token.Ledger, self: Address, from: Address, a: Address, x: nat, b: Address, y: nat): Result<Token.Ledger> {
    var l1 :- Out(l, self, from, a, x);
    Out(l1, self, from, b, y)
  }

  function FeeTwice(l: Token.Ledger, self: Address, from: Address, collector: Address, x: nat, y: nat): Result<Token.Ledger> {
    var l1 :- FeeOut(l, self, from, collector, x);
    FeeOut(l1, self, from, collector, y)
  }

  lemma OneOut(l: Token.Ledger, self: Address, from: Address, to: Address, amount: nat)
    requires from != to && Out(l, self, from, to, amount).Ok?
    ensures var one := Out(l, self, from, to, amount).value;
            && one.supply == l.supply
            && one.allowances == Spent(l, from, self, amount)
            && (forall k: Address :: Token.Balance(one, k) ==
                  Token.Balance(l, k) - (if k == from then amount else 0) + (if k == to then amount else 0))
            && one.balances.Keys == l.balances.Keys + {from, to}
  {
    OutExactly(l, self, from, to, amount);
  }

  lemma SumOfOuts(l: Token.Ledger, self: Address, from: Address, to: Address, x: nat, y: nat)
    requires Token.Allowance(l, from, self) <= MAX_UINT256 && from != to
    ensures OutTwice(l, self, from, to, x, to, y).Ok? <==> Out(l, self, from, to, x + y).Ok?
  {
    TwoOutsSucceed(l, self, from, to, x, to, y);
    OutExactly(l, self, from, to, x + y);
  }

  /** Two fee transfers are one transfer of their sum. */
  lemma FeesMerge(l: Token.Ledger, self: Address, from: Address, collector: Address, x: nat, y: nat)
    requires Token.Allowance(l, from, self) <= MAX_UINT256
    requires from != collector
    ensures Same(FeeTwice(l, self, from, collector, x, y), FeeOut(l, self, from, collector, x + y))
  {
    if x > 0 && y > 0 {
      SumOfOuts(l, self, from, collector, x, y);
      var twice, once := OutTwice(l, self, from, collector, x, collector, y), Out(l, self, from, collector, x + y);
      assert FeeTwice(l, self, from, collector, x, y) == twice;
      if twice.Ok? {
        TwoOuts(l, self, from, collector, x, collector, y);
        OneOut(l, self, from, collector, x + y);
        SameLedger(twice.value, once.value);
      }
    }
  }

  function Redeemed1(h: State, id: Id, collateral: Token.Ledger): State {
    h.(redemptions := Put(h.redemptions, id, EMPTY), collateral := collateral)
  }

  lemma ClaimOneByTerms(r: Redeeming, ctx: Context, id: Id)
    ensures var terms := RedemptionTerms(r.hub, ctx, id);
            var result := ClaimRedemptionOne(r, ctx, id);
            && (terms.Revert? ==> result.Revert?)
            && (terms.Ok? ==>
                  var t := terms.value;
                  var paid := Out(r.hub.collateral, r.hub.self, r.hub.assetSender, t.user, t.postFees);
                  && (result.Ok? <==> r.fees + t.fee <= MAX_UINT256 && paid.Ok?)
                  && (result.Ok? ==>
                        result.value == Redeeming(Redeemed1(r.hub, id, paid.value), r.fees + t.fee, r.events + [t.event])))
  {
  }

  /** Ends a batch: the accumulated fee is transferred. */
  function Finish(r: Redeeming): Result<Effect> {
    var paid :- PayFee(r.hub, r.hub.assetSender, r.fees);
    Ok(Effect(paid, r.events))
  }

  lemma FinishByFeeOut(r: Redeeming)
    ensures var fee := FeeOut(r.hub.collateral, r.hub.self, r.hub.assetSender, r.hub.feeRecipient, r.fees);
            && (Finish(r).Ok? <==> fee.Ok?)
            && (Finish(r).Ok? ==> Finish(r).value == Effect(r.hub.(collateral := fee.value), r.events))
  {
  }

  function OneMore(r: Redeeming, ctx: Context, id: Id): Result<Effect> {
    var r' :- ClaimRedemptionOne(r, ctx, id);
    Finish(r')
  }

  /** The fee paid, then a whole single claim. */
  function FinishThenSingle(r: Redeeming, ctx: Context, id: Id): Result<Effect> {
    var e :- Finish(r);
    var one :- OneMore(Redeeming(e.hub, 0, []), ctx, id);
    Ok(Effect(one.hub, e.events + one.events))
  }

  /** The two orders of transfers of one more claim, at the token. */
  lemma TransfersAgree(l: Token.Ledger, self: Address, from: Address, payee: Address, collector: Address,
                       f: nat, fee: nat, amount: nat)
    requires from != payee && from != collector && Token.Valid(l)
    ensures var batch := PayThenFee(l, self, from, payee, collector, f + fee, amount);
            var early := FeeOut(l, self, from, collector, f);
            && (early.Revert? ==> batch.Revert?)
            && (early.Ok? ==> Same(PayThenFee(early.value, self, from, payee, collector, fee, amount), batch))
            && (batch.Ok? ==> f + fee <= MAX_UINT256)
  {
    assert Token.Allowance(l, from, self) <= MAX_UINT256;
    FeeCommutesWithPayment(l, self, from, payee, collector, f, amount);
    OutExactly(l, self, from, payee, amount);
    Token.BalancesFit(l, from);
    var paid := Out(l, self, from, payee, amount);
    if paid.Ok? {
      Token.TransferFromConserves(l, Token.Open, self, from, payee, amount);
      assert Token.Allowance(paid.value, from, self) <= MAX_UINT256;
      FeesMerge(paid.value, self, from, collector, f, fee);
      OutExactly(paid.value, self, from, collector, f + fee);
    }
  }

  /** One more claim and then the fee, by the claim's terms. */
  lemma OneMoreByTerms(r: Redeeming, ctx: Context, id: Id, t: Terms)
    requires RedemptionTerms(r.hub, ctx, id) == Ok(t)
    ensures var h := r.hub;
            var l := PayThenFee(h.collateral, h.self, h.assetSender, t.user, h.feeRecipient, r.fees + t.fee, t.postFees);
            && (OneMore(r, ctx, id).Ok? <==> r.fees + t.fee <= MAX_UINT256 && l.Ok?)
            && (OneMore(r, ctx, id).Ok? ==>
                  OneMore(r, ctx, id).value == Effect(Redeemed1(h, id, l.value), r.events + [t.event]))
  {
    ClaimOneByTerms(r, ctx, id);
    if ClaimRedemptionOne(r, ctx, id).Ok? {
      FinishByFeeOut(ClaimRedemptionOne(r, ctx, id).value);
    }
  }

  /** A single claim after the fee so far was paid, by the claim's terms. */
  lemma SingleAfterFee(r: Redeeming, ctx: Context, id: Id, t: Terms, early: Token.Ledger)
    requires RedemptionTerms(r.hub, ctx, id) == Ok(t)
    requires FeeOut(r.hub.collateral, r.hub.self, r.hub.assetSender, r.hub.feeRecipient, r.fees) == Ok(early)
    ensures var h := r.hub;
            var l := PayThenFee(early, h.self, h.assetSender, t.user, h.feeRecipient, t.fee, t.postFees);
            && (FinishThenSingle(r, ctx, id).Ok? <==> t.fee <= MAX_UINT256 && l.Ok?)
            && (FinishThenSingle(r, ctx, id).Ok? ==>
                  FinishThenSingle(r, ctx, id).value == Effect(Redeemed1(h, id, l.value), r.events + [t.event]))
  {
    FinishByFeeOut(r);
    OneMoreByTerms(Redeeming(r.hub.(collateral := early), 0, []), ctx, id, t);
  }

  lemma OneMoreAgrees(r: Redeeming, ctx: Context, id: Id)
    requires Token.Valid(r.hub.collateral)
    requires r.hub.assetSender != r.hub.feeRecipient && r.hub.assetSender != At(r.hub.redemptions, id).user
    ensures Same(OneMore(r, ctx, id), FinishThenSingle(r, ctx, id))
  {
    var h, terms := r.hub, RedemptionTerms(r.hub, ctx, id);
    var fee := FeeOut(h.collateral, h.self, h.assetSender, h.feeRecipient, r.fees);
    if terms.Ok? {
      var t := terms.value;
      TransfersAgree(h.collateral, h.self, h.assetSender, t.user, h.feeRecipient, r.fees, t.fee, t.postFees);
      OneMoreByTerms(r, ctx, id, t);
      if fee.Ok? {
        SingleAfterFee(r, ctx, id, t, fee.value);
      } else {
        FinishByFeeOut(r);
      }
    } else {
      NoTermsNoClaim(r, ctx, id);
    }
  }

  lemma NoTermsNoClaim(r: Redeeming, ctx: Context, id: Id)
    requires RedemptionTerms(r.hub, ctx, id).Revert?
    ensures OneMore(r, ctx, id).Revert? && FinishThenSingle(r, ctx, id).Revert?
  {
    ClaimOneByTerms(r, ctx, id);
    FinishByFeeOut(r);
    if Finish(r).Ok? {
      ClaimOneByTerms(Redeeming(Finish(r).value.hub, 0, []), ctx, id);
    }
  }

  /** What a loop turn leaves alone. */
  lemma {:induction false} LoopFrame(h: State, ctx: Context, ids: seq<Id>)
    requires ClaimRedemptions(h, ctx, ids).Ok?
    ensures var h' := ClaimRedemptions(h, ctx, ids).value.hub;
            h'.self == h.self && h'.assetSender == h.assetSender && h'.feeRecipient == h.feeRecipient
            && h'.redemptionPaused == h.redemptionPaused && h'.redemptionFee == h.redemptionFee
            && h'.multiplier == h.multiplier && h'.mintFee == h.mintFee
  {
    if ids != [] {
      var last := |ids| - 1;
      LoopFrame(h, ctx, ids[..last]);
      ClaimOneByTerms(ClaimRedemptions(h, ctx, ids[..last]).value, ctx, ids[last]);
    }
  }

  lemma SingleClaimIsOneMore(h: State, ctx: Context, id: Id)
    requires !h.redemptionPaused
    ensures ClaimRedemption(h, ctx, [id]) == OneMore(Redeeming(h, 0, []), ctx, id)
  {
    assert [id][..0] == [];
    assert ClaimRedemptions(h, ctx, []) == Ok(Redeeming(h, 0, []));
  }

  /** claimRedemption with its one accumulated fee transfer succeeds exactly when the
      single claims do, and leaves the same state and events. The source of the
      payments must not be among those who receive them. */
  lemma {:induction false} BatchIsSingles(h: State, ctx: Context, ids: seq<Id>)
    requires HubRuns.Sound(h) && h.assetSender != h.feeRecipient
    requires forall id <- ids :: At(h.redemptions, id).user != h.assetSender
    ensures Same(ClaimRedemption(h, ctx, ids), Singles(h, ctx, ids))
  {
    if ids != [] && !h.redemptionPaused {
      var last := |ids| - 1;
      var id := ids[last];
      BatchIsSingles(h, ctx, ids[..last]);
      var before := ClaimRedemptions(h, ctx, ids[..last]);
      if before.Ok? {
        LoopFrame(h, ctx, ids[..last]);
        HubRuns.ClaimRedemptionsKeepSound(h, ctx, ids[..last]);
        ClaimedRedemptionsAreGone(h, ctx, ids[..last]);
        if At(before.value.hub.redemptions, id) == EMPTY {
          NoTermsNoClaim(before.value, ctx, id);
        } else {
          OneMoreAgrees(before.value, ctx, id);
        }
        FinishByFeeOut(before.value);
        if Finish(before.value).Ok? {
          SingleClaimIsOneMore(Finish(before.value).value.hub, ctx, id);
        }
      }
    } else if ids != [] {
      PausedSingles(h, ctx, ids);
    }
  }

  lemma {:induction false} PausedSingles(h: State, ctx: Context, ids: seq<Id>)
    requires h.redemptionPaused
    ensures Singles(h, ctx, ids).Revert?
  {
    if ids != [] {
      PausedSingles(h, ctx, ids[..|ids| - 1]);
    }
  }

  // ------------------------------------------------------------- where the collateral goes

  /** What the completed redemptions among `events` returned to an account. */
  function Received(events: seq<Event>, account: Address): nat {
    if events == [] then 0 else
      var e := events[|events| - 1];
      Received(events[..|events| - 1], account)
      + if e.RedemptionCompleted? && e.user == account then e.collateralAmountReturned else 0
  }

  /** What they returned to everybody. */
  function Returned(events: seq<Event>): nat {
    if events == [] then 0 else
      var e := events[|events| - 1];
      Returned(events[..|events| - 1]) + if e.RedemptionCompleted? then e.collateralAmountReturned else 0
  }

  /** Collateral due to the completed redemptions among `events`, fees included. */
  function Due(scale: nat, events: seq<Event>): nat
    requires scale > 0
  {
    if events == [] then 0 else
      var e := events[|events| - 1];
      Due(scale, events[..|events| - 1])
      + if e.RedemptionCompleted? then Redeemed(scale, e.rwaAmountRequested, e.price) else 0
  }

  /** The ledger's total of paid collateral is that sum. */
  lemma {:induction false} DueIsPaid(scale: nat, c: Core, now: nat, events: seq<Event>)
    requires scale > 0
    ensures Totals(scale, c, Stamp(now, events)).paid == Due(scale, events)
  {
    if events != [] {
      var before := events[..|events| - 1];
      DueIsPaid(scale, c, now, before);
      assert Stamp(now, events)[..|events| - 1] == Stamp(now, before);
    }
  }

  lemma TurnPays(r: Redeeming, ctx: Context, id: Id, account: Address)
    requires r.hub.multiplier > 0 && ClaimRedemptionOne(r, ctx, id).Ok?
    requires At(r.hub.redemptions, id).user != r.hub.assetSender
    ensures var r', l := ClaimRedemptionOne(r, ctx, id).value, r.hub.collateral;
            var scale, from := Scale(r.hub.multiplier), r.hub.assetSender;
            && Token.Balance(r'.hub.collateral, from) + Due(scale, r'.events) - r'.fees
               == Token.Balance(l, from) + Due(scale, r.events) - r.fees
            && r'.fees + Returned(r'.events) - Due(scale, r'.events) == r.fees + Returned(r.events) - Due(scale, r.events)
            && (account != from ==>
                  Token.Balance(r'.hub.collateral, account) - Received(r'.events, account)
                  == Token.Balance(l, account) - Received(r.events, account))
  {
    var t := RedemptionTerms(r.hub, ctx, id).value;
    ClaimOneByTerms(r, ctx, id);
    OutExactly(r.hub.collateral, r.hub.self, r.hub.assetSender, t.user, t.postFees);
    RedemptionAmountIsFloor(r.hub.multiplier, t.event.rwaAmountRequested, t.event.price);
    assert (r.events + [t.event])[..|r.events|] == r.events;
  }

  lemma {:induction false} LoopPays(h: State, ctx: Context, ids: seq<Id>, account: Address)
    requires h.multiplier > 0 && ClaimRedemptions(h, ctx, ids).Ok?
    requires forall id <- ids :: At(h.redemptions, id).user != h.assetSender
    ensures var r, scale, from := ClaimRedemptions(h, ctx, ids).value, Scale(h.multiplier), h.assetSender;
            && Token.Balance(r.hub.collateral, from) + Due(scale, r.events) - r.fees == Token.Balance(h.collateral, from)
            && r.fees + Returned(r.events) == Due(scale, r.events)
            && (account != from ==>
                  Token.Balance(r.hub.collateral, account) == Token.Balance(h.collateral, account) + Received(r.events, account))
  {
    if ids != [] {
      var last := |ids| - 1;
      LoopPays(h, ctx, ids[..last], account);
      LoopFrame(h, ctx, ids[..last]);
      ClaimedRedemptionsAreGone(h, ctx, ids);
      ClaimedRedemptionsAreGone(h, ctx, ids[..last]);
      TurnPays(ClaimRedemptions(h, ctx, ids[..last]).value, ctx, ids[last], account);
    }
  }

  /** A redemption batch takes from the asset sender exactly the collateral due for the
      burned tokens; each user gets what its events say, and the fee recipient the rest. */
  lemma ClaimRedemptionPays(h: State, ctx: Context, ids: seq<Id>, account: Address)
    requires h.multiplier > 0 && ClaimRedemption(h, ctx, ids).Ok? && h.assetSender != h.feeRecipient
    requires forall id <- ids :: At(h.redemptions, id).user != h.assetSender
    ensures var e, scale := ClaimRedemption(h, ctx, ids).value, Scale(h.multiplier);
            && Distinct(ids)
            && Token.Balance(e.hub.collateral, h.assetSender) == Token.Balance(h.collateral, h.assetSender) - Due(scale, e.events)
            && (account != h.assetSender ==>
                  Token.Balance(e.hub.collateral, account) ==
                  Token.Balance(h.collateral, account) + Received(e.events, account)
                  + (if account == h.feeRecipient then Due(scale, e.events) - Returned(e.events) else 0))
  {
    LoopPays(h, ctx, ids, account);
    LoopFrame(h, ctx, ids);
    ClaimedRedemptionsAreGone(h, ctx, ids);
    var r := ClaimRedemptions(h, ctx, ids).value;
    FinishByFeeOut(r);
    OutExactly(r.hub.collateral, r.hub.self, r.hub.assetSender, r.hub.feeRecipient, r.fees);
  }

  /** A subscription records what is left of the amount after the fee, and transfers
      the two parts. */
  lemma SubscriptionTransfers(h: State, ctx: Context, amount: nat)
    requires RequestSubscription(h, ctx, amount).Ok?
    ensures var h' := RequestSubscription(h, ctx, amount).value.hub;
            var after := AfterFee(amount, h.mintFee);
            && 0 <= after <= amount
            && At(h'.deposits, h.subscriptionCounter) == Record(ctx.sender, after, 0)
            && FeeThenPay(h.collateral, h.self, ctx.sender, ASSET_RECIPIENT, h.feeRecipient, amount - after, after)
               == Ok(h'.collateral)
  {
  }

  /** Such a pair of transfers takes both parts from its source and gives each to its
      destination; no other balance moves. */
  lemma FeeThenPayMoves(l: Token.Ledger, self: Address, from: Address, payee: Address, collector: Address,
                        fee: nat, amount: nat, account: Address)
    requires from != payee && from != collector && FeeThenPay(l, self, from, payee, collector, fee, amount).Ok?
    ensures Token.Balance(FeeThenPay(l, self, from, payee, collector, fee, amount).value, account) == Token.Balance(l, account)
            - (if account == from then fee + amount else 0)
            + (if account == collector then fee else 0) + (if account == payee then amount else 0)
  {
    OutExactly(l, self, from, collector, fee);
    OutExactly(FeeOut(l, self, from, collector, fee).value, self, from, payee, amount);
  }
}
