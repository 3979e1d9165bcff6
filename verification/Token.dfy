/** The EIP-20 ledger shared by the collateral and the fund token, and the transfer
    hook that gates the fund token (USBS). */
module Token {
  import opened Outcomes
  import opened MapSums
  import Allowlist

  datatype Ledger = Ledger(
    balances: map<Address, nat>,
    allowances: map<(Address, Address), nat>,
    supply: nat)

  function Balance(l: Ledger, account: Address): nat {
    Get(l.balances, account)
  }

  function Allowance(l: Ledger, owner: Address, spender: Address): nat {
    Get(l.allowances, (owner, spender))
  }

  /** The lists the hook consults; they may be replaced or rewritten between calls. */
  datatype Lists = Lists(
    blocked: set<Address>,
    sanctioned: set<Address>,
    allowlist: Allowlist.State,
    contracts: set<Address>)

  /** A plain token has no hook. */
  datatype Gate = Open | Gated(paused: bool, lists: Lists)

  function CheckAccount(lists: Lists, account: Address): Result<()> {
    var _ :- Need(account !in lists.blocked, BlockedAccount);
    var _ :- Need(account !in lists.sanctioned, SanctionedAccount);
    Need(Allowlist.IsAllowed(lists.allowlist, lists.contracts, account), NotOnAllowlist)
  }

  /** _beforeTokenTransfer: third-party senders, then the source, then the destination. */
  function Hook(g: Gate, sender: Address, from: Address, to: Address): Result<()> {
    if g.Open? then Ok(()) else
      var _ :- Need(!g.paused, TokenPaused);
      var _ :- if from != sender && to != sender then CheckAccount(g.lists, sender) else Ok(());
      var _ :- if from != ZERO_ADDRESS then CheckAccount(g.lists, from) else Ok(());
      if to != ZERO_ADDRESS then CheckAccount(g.lists, to) else Ok(())
  }

  /** _transfer. */
  function Move(l: Ledger, g: Gate, sender: Address, from: Address, to: Address, amount: nat): Result<Ledger> {
    var _ :- Need(from != ZERO_ADDRESS && to != ZERO_ADDRESS, TransferToOrFromZero);
    var _ :- Hook(g, sender, from, to);
    var _ :- Need(Balance(l, from) >= amount, BalanceTooSmall);
    var debited := l.balances[from := Balance(l, from) - amount];
    var credit :- CheckedAdd(Get(debited, to), amount);
    Ok(l.(balances := debited[to := credit]))
  }

  function Mint(l: Ledger, g: Gate, sender: Address, to: Address, amount: nat): Result<Ledger> {
    var _ :- Need(to != ZERO_ADDRESS, TransferToOrFromZero);
    var _ :- Hook(g, sender, ZERO_ADDRESS, to);
    var supply :- CheckedAdd(l.supply, amount);
    var credit :- CheckedAdd(Balance(l, to), amount);
    Ok(l.(supply := supply, balances := l.balances[to := credit]))
  }

  function Burn(l: Ledger, g: Gate, sender: Address, from: Address, amount: nat): Result<Ledger> {
    var _ :- Need(from != ZERO_ADDRESS, TransferToOrFromZero);
    var _ :- Hook(g, sender, from, ZERO_ADDRESS);
    var _ :- Need(Balance(l, from) >= amount, BalanceTooSmall);
    var supply :- CheckedSub(l.supply, amount);
    Ok(l.(supply := supply, balances := l.balances[from := Balance(l, from) - amount]))
  }

  function Approve(l: Ledger, owner: Address, spender: Address, amount: nat): Result<Ledger> {
    var _ :- Need(owner != ZERO_ADDRESS && spender != ZERO_ADDRESS, TransferToOrFromZero);
    Ok(l.(allowances := l.allowances[(owner, spender) := amount]))
  }

  /** _spendAllowance: the largest allowance is never used up. */
  function SpendAllowance(l: Ledger, owner: Address, spender: Address, amount: nat): Result<Ledger> {
    var current := Allowance(l, owner, spender);
    if current == MAX_UINT256 then Ok(l) else
      var _ :- Need(current >= amount, AllowanceTooSmall);
      Approve(l, owner, spender, current - amount)
  }

  function TransferFrom(l: Ledger, g: Gate, sender: Address, from: Address, to: Address, amount: nat): Result<Ledger> {
    var spent :- SpendAllowance(l, from, sender, amount);
    Move(spent, g, sender, from, to, amount)
  }

  function BurnFrom(l: Ledger, g: Gate, sender: Address, from: Address, amount: nat): Result<Ledger> {
    var spent :- SpendAllowance(l, from, sender, amount);
    Burn(spent, g, sender, from, amount)
  }

  datatype Op =
    | TransferOp(to: Address, amount: Uint256)
    | TransferFromOp(from: Address, to: Address, amount: Uint256)
    | MintOp(to: Address, amount: Uint256)
    | BurnOp(amount: Uint256)
    | BurnFromOp(from: Address, amount: Uint256)
    | AdminBurnOp(from: Address, amount: Uint256)
    | ApproveOp(spender: Address, amount: Uint256)
    | IncreaseAllowanceOp(spender: Address, amount: Uint256)
    | DecreaseAllowanceOp(spender: Address, amount: Uint256)

  datatype Roles = Roles(minter: bool, burner: bool)

  /** A call to the token by anybody. */
  function Step(l: Ledger, g: Gate, sender: Address, roles: Roles, op: Op): Result<Ledger> {
    match op
    case TransferOp(to, amount) => Move(l, g, sender, sender, to, amount)
    case TransferFromOp(from, to, amount) => TransferFrom(l, g, sender, from, to, amount)
    case MintOp(to, amount) =>
      var _ :- Need(roles.minter, MissingRole);
      Mint(l, g, sender, to, amount)
    case BurnOp(amount) => Burn(l, g, sender, sender, amount)
    case BurnFromOp(from, amount) => BurnFrom(l, g, sender, from, amount)
    case AdminBurnOp(from, amount) =>
      var _ :- Need(roles.burner, MissingRole);
      Burn(l, g, sender, from, amount)
    case ApproveOp(spender, amount) => Approve(l, sender, spender, amount)
    case IncreaseAllowanceOp(spender, amount) =>
      var allowance :- CheckedAdd(Allowance(l, sender, spender), amount);
      Approve(l, sender, spender, allowance)
    case DecreaseAllowanceOp(spender, amount) =>
      var _ :- Need(Allowance(l, sender, spender) >= amount, AllowanceTooSmall);
      Approve(l, sender, spender, Allowance(l, sender, spender) - amount)
  }

  datatype Call = Call(gate: Gate, sender: Address, roles: Roles, op: Op)

  function Exec(l: Ledger, c: Call): Ledger {
    var r := Step(l, c.gate, c.sender, c.roles, c.op);
    if r.Ok? then r.value else l
  }

  function Run(l: Ledger, calls: seq<Call>): Ledger
    decreases |calls|
  {
    if calls == [] then l else Run(Exec(l, calls[0]), calls[1..])
  }

  // ------------------------------------------------------------- conservation

  /** Balances add up to the supply, and supply and allowances are words. */
  ghost predicate Valid(l: Ledger) {
    SumOver(l.balances) == l.supply <= MAX_UINT256 && AllowancesFit(l.allowances)
  }

  ghost predicate AllowancesFit(allowances: map<(Address, Address), nat>) {
    forall k | k in allowances :: allowances[k] <= MAX_UINT256
  }

  lemma BalancesFit(l: Ledger, account: Address)
    requires Valid(l)
    ensures Balance(l, account) <= l.supply <= MAX_UINT256
  {
    GetAtMostSum(l.balances, account);
  }

  /** How much an op adds to the supply when it succeeds. */
  function SupplyChange(op: Op): int {
    match op
    case MintOp(_, amount) => amount
    case BurnOp(amount) => 0 - amount
    case BurnFromOp(_, amount) => 0 - amount
    case AdminBurnOp(_, amount) => 0 - amount
    case _ => 0
  }

  lemma MoveConserves(l: Ledger, g: Gate, sender: Address, from: Address, to: Address, amount: nat)
    requires Valid(l) && Move(l, g, sender, from, to, amount).Ok?
    ensures Valid(Move(l, g, sender, from, to, amount).value)
    ensures Move(l, g, sender, from, to, amount).value.supply == l.supply
  {
    var debited := l.balances[from := Balance(l, from) - amount];
    SumPut(l.balances, from, Balance(l, from) - amount);
    SumPut(debited, to, Get(debited, to) + amount);
  }

  lemma MintConserves(l: Ledger, g: Gate, sender: Address, to: Address, amount: nat)
    requires Valid(l) && Mint(l, g, sender, to, amount).Ok?
    ensures Valid(Mint(l, g, sender, to, amount).value)
    ensures Mint(l, g, sender, to, amount).value.supply == l.supply + amount
  {
    SumPut(l.balances, to, Balance(l, to) + amount);
  }

  lemma BurnConserves(l: Ledger, g: Gate, sender: Address, from: Address, amount: nat)
    requires Valid(l) && Burn(l, g, sender, from, amount).Ok?
    ensures Valid(Burn(l, g, sender, from, amount).value)
    ensures Burn(l, g, sender, from, amount).value.supply == l.supply - amount
  {
    SumPut(l.balances, from, Balance(l, from) - amount);
  }

  lemma ApprovingKeepsFit(l: Ledger, owner: Address, spender: Address, amount: nat)
    requires AllowancesFit(l.allowances) && amount <= MAX_UINT256 && Approve(l, owner, spender, amount).Ok?
    ensures AllowancesFit(Approve(l, owner, spender, amount).value.allowances)
  {
  }

  lemma SpendingKeepsBalances(l: Ledger, owner: Address, spender: Address, amount: nat)
    requires SpendAllowance(l, owner, spender, amount).Ok?
    ensures SpendAllowance(l, owner, spender, amount).value.balances == l.balances
    ensures SpendAllowance(l, owner, spender, amount).value.supply == l.supply
    ensures AllowancesFit(l.allowances) ==> AllowancesFit(SpendAllowance(l, owner, spender, amount).value.allowances)
  {
    var current := Allowance(l, owner, spender);
    if AllowancesFit(l.allowances) && current != MAX_UINT256 {
      ApprovingKeepsFit(l, owner, spender, current - amount);
    }
  }

  lemma TransferFromConserves(l: Ledger, g: Gate, sender: Address, from: Address, to: Address, amount: nat)
    requires Valid(l) && TransferFrom(l, g, sender, from, to, amount).Ok?
    ensures Valid(TransferFrom(l, g, sender, from, to, amount).value)
    ensures TransferFrom(l, g, sender, from, to, amount).value.supply == l.supply
  {
    SpendingKeepsBalances(l, from, sender, amount);
    MoveConserves(SpendAllowance(l, from, sender, amount).value, g, sender, from, to, amount);
  }

  lemma BurnFromConserves(l: Ledger, g: Gate, sender: Address, from: Address, amount: nat)
    requires Valid(l) && BurnFrom(l, g, sender, from, amount).Ok?
    ensures Valid(BurnFrom(l, g, sender, from, amount).value)
    ensures BurnFrom(l, g, sender, from, amount).value.supply == l.supply - amount
  {
    SpendingKeepsBalances(l, from, sender, amount);
    BurnConserves(SpendAllowance(l, from, sender, amount).value, g, sender, from, amount);
  }

  /** No call creates or loses a token except by minting and burning. */
  lemma StepConserves(l: Ledger, c: Call)
    requires Valid(l) && Step(l, c.gate, c.sender, c.roles, c.op).Ok?
    ensures Valid(Exec(l, c)) && Exec(l, c).supply == l.supply + SupplyChange(c.op)
  {
    match c.op
    case TransferOp(to, amount) => MoveConserves(l, c.gate, c.sender, c.sender, to, amount);
    case TransferFromOp(from, to, amount) => TransferFromConserves(l, c.gate, c.sender, from, to, amount);
    case MintOp(to, amount) => MintConserves(l, c.gate, c.sender, to, amount);
    case BurnOp(amount) => BurnConserves(l, c.gate, c.sender, c.sender, amount);
    case BurnFromOp(from, amount) => BurnFromConserves(l, c.gate, c.sender, from, amount);
    case AdminBurnOp(from, amount) => BurnConserves(l, c.gate, c.sender, from, amount);
    case ApproveOp(spender, amount) => ApprovingKeepsFit(l, c.sender, spender, amount);
    case IncreaseAllowanceOp(spender, amount) =>
      ApprovingKeepsFit(l, c.sender, spender, Allowance(l, c.sender, spender) + amount);
    case DecreaseAllowanceOp(spender, amount) =>
      ApprovingKeepsFit(l, c.sender, spender, Allowance(l, c.sender, spender) - amount);
  }

  // ------------------------------------------------------------- each operation, in terms of its arguments

  /** On neither list against it, and a contract or verified for some valid term. */
  ghost predicate Passes(lists: Lists, account: Address) {
    && account !in lists.blocked && account !in lists.sanctioned
    && (account in lists.contracts
        || exists i <- lists.allowlist.validIndexes :: (account, i) in lists.allowlist.verifications)
  }

  lemma CheckAccountIff(lists: Lists, account: Address)
    ensures CheckAccount(lists, account).Ok? <==> Passes(lists, account)
    ensures CheckAccount(lists, account).Revert? ==>
              CheckAccount(lists, account).error ==
              if account in lists.blocked then BlockedAccount
              else if account in lists.sanctioned then SanctionedAccount else NotOnAllowlist
  {
    var a := lists.allowlist;
    assert Allowlist.IsAllowed(a, lists.contracts, account) <==>
           account in lists.contracts || exists i <- a.validIndexes :: (account, i) in a.verifications;
  }

  /** Who has to pass in a movement: both real ends, and the caller if it is neither. */
  ghost predicate HookPasses(g: Gate, sender: Address, from: Address, to: Address) {
    || g.Open?
    || (&& !g.paused
        && (sender != from && sender != to ==> Passes(g.lists, sender))
        && (from != ZERO_ADDRESS ==> Passes(g.lists, from))
        && (to != ZERO_ADDRESS ==> Passes(g.lists, to)))
  }

  lemma HookIff(g: Gate, sender: Address, from: Address, to: Address)
    ensures Hook(g, sender, from, to).Ok? <==> HookPasses(g, sender, from, to)
  {
    if g.Gated? {
      CheckAccountIff(g.lists, sender);
      CheckAccountIff(g.lists, from);
      CheckAccountIff(g.lists, to);
    }
  }

  /** Why the hook rejects: the pause, then the caller, then the source, then the destination. */
  lemma HookRejectsWith(g: Gate, sender: Address, from: Address, to: Address)
    requires Hook(g, sender, from, to).Revert?
    ensures g.Gated?
    ensures Hook(g, sender, from, to).error ==
            if g.paused then TokenPaused
            else if sender != from && sender != to && CheckAccount(g.lists, sender).Revert?
              then CheckAccount(g.lists, sender).error
            else if from != ZERO_ADDRESS && CheckAccount(g.lists, from).Revert? then CheckAccount(g.lists, from).error
            else CheckAccount(g.lists, to).error
  {
  }

  /** A balance when `amount` left `from` and reached `to`. */
  function Moved(l: Ledger, from: Address, to: Address, amount: nat, account: Address): int {
    Balance(l, account) - (if account == from then amount else 0) + (if account == to then amount else 0)
  }

  lemma TwoBalancesFit(l: Ledger, a: Address, b: Address)
    requires Valid(l) && a != b
    ensures Balance(l, a) + Balance(l, b) <= MAX_UINT256
  {
    SumWithout(l.balances, a);
    SumWithout(l.balances - {a}, b);
  }

  lemma MoveExactly(l: Ledger, g: Gate, sender: Address, from: Address, to: Address, amount: nat)
    requires Valid(l)
    ensures Move(l, g, sender, from, to, amount).Ok? <==>
            && from != ZERO_ADDRESS && to != ZERO_ADDRESS
            && HookPasses(g, sender, from, to) && Balance(l, from) >= amount
    ensures Move(l, g, sender, from, to, amount).Ok? ==>
              var l' := Move(l, g, sender, from, to, amount).value;
              && l'.supply == l.supply && l'.allowances == l.allowances
              && forall account: Address :: Balance(l', account) == Moved(l, from, to, amount, account)
  {
    HookIff(g, sender, from, to);
    BalancesFit(l, from);
    if from != to {
      TwoBalancesFit(l, from, to);
    }
  }

  lemma MintExactly(l: Ledger, g: Gate, sender: Address, to: Address, amount: nat)
    requires Valid(l)
    ensures Mint(l, g, sender, to, amount).Ok? <==>
            to != ZERO_ADDRESS && HookPasses(g, sender, ZERO_ADDRESS, to) && l.supply + amount <= MAX_UINT256
    ensures Mint(l, g, sender, to, amount).Ok? ==>
              var l' := Mint(l, g, sender, to, amount).value;
              && l'.supply == l.supply + amount && l'.allowances == l.allowances
              && forall account: Address :: Balance(l', account) == Balance(l, account) + (if account == to then amount else 0)
  {
    HookIff(g, sender, ZERO_ADDRESS, to);
    BalancesFit(l, to);
  }

  lemma BurnExactly(l: Ledger, g: Gate, sender: Address, from: Address, amount: nat)
    requires Valid(l)
    ensures Burn(l, g, sender, from, amount).Ok? <==>
            from != ZERO_ADDRESS && HookPasses(g, sender, from, ZERO_ADDRESS) && Balance(l, from) >= amount
    ensures Burn(l, g, sender, from, amount).Ok? ==>
              var l' := Burn(l, g, sender, from, amount).value;
              && l'.supply == l.supply - amount && l'.allowances == l.allowances
              && forall account: Address :: Balance(l', account) == Balance(l, account) - (if account == from then amount else 0)
  {
    HookIff(g, sender, from, ZERO_ADDRESS);
    BalancesFit(l, from);
  }

  /** The spender's allowance covers the amount; the largest allowance is not used up. */
  predicate MaySpend(l: Ledger, owner: Address, spender: Address, amount: nat) {
    || Allowance(l, owner, spender) == MAX_UINT256
    || (owner != ZERO_ADDRESS && spender != ZERO_ADDRESS && Allowance(l, owner, spender) >= amount)
  }

  /** Only this allowance, from `owner` to `spender`, is now `amount`. */
  ghost predicate OnlyAllowance(l: Ledger, l': Ledger, owner: Address, spender: Address, amount: nat) {
    forall o: Address, s: Address ::
      Allowance(l', o, s) == if o == owner && s == spender then amount else Allowance(l, o, s)
  }

  function LeftToSpend(l: Ledger, owner: Address, spender: Address, amount: nat): int {
    if Allowance(l, owner, spender) == MAX_UINT256 then MAX_UINT256 else Allowance(l, owner, spender) - amount
  }

  lemma SpendExactly(l: Ledger, owner: Address, spender: Address, amount: nat)
    ensures SpendAllowance(l, owner, spender, amount).Ok? <==> MaySpend(l, owner, spender, amount)
    ensures SpendAllowance(l, owner, spender, amount).Ok? ==>
              var l', left := SpendAllowance(l, owner, spender, amount).value, LeftToSpend(l, owner, spender, amount);
              && l'.balances == l.balances && l'.supply == l.supply
              && left >= 0 && OnlyAllowance(l, l', owner, spender, left)
  {
  }

  lemma ApproveExactly(l: Ledger, owner: Address, spender: Address, amount: nat)
    ensures Approve(l, owner, spender, amount).Ok? <==> owner != ZERO_ADDRESS && spender != ZERO_ADDRESS
    ensures Approve(l, owner, spender, amount).Ok? ==>
              var l' := Approve(l, owner, spender, amount).value;
              l'.balances == l.balances && l'.supply == l.supply && OnlyAllowance(l, l', owner, spender, amount)
  {
  }

  lemma SpentValid(l: Ledger, owner: Address, spender: Address, amount: nat)
    requires Valid(l) && SpendAllowance(l, owner, spender, amount).Ok?
    ensures Valid(SpendAllowance(l, owner, spender, amount).value)
  {
    SpendingKeepsBalances(l, owner, spender, amount);
  }

  lemma TransferFromExactly(l: Ledger, g: Gate, sender: Address, from: Address, to: Address, amount: nat)
    requires Valid(l)
    ensures TransferFrom(l, g, sender, from, to, amount).Ok? <==>
            && from != ZERO_ADDRESS && to != ZERO_ADDRESS && MaySpend(l, from, sender, amount)
            && HookPasses(g, sender, from, to) && Balance(l, from) >= amount
    ensures TransferFrom(l, g, sender, from, to, amount).Ok? ==>
              var l', left := TransferFrom(l, g, sender, from, to, amount).value, LeftToSpend(l, from, sender, amount);
              && l'.supply == l.supply && left >= 0 && OnlyAllowance(l, l', from, sender, left)
              && forall account: Address :: Balance(l', account) == Moved(l, from, to, amount, account)
  {
    SpendExactly(l, from, sender, amount);
    var spent := SpendAllowance(l, from, sender, amount);
    if spent.Ok? {
      SpentValid(l, from, sender, amount);
      MoveExactly(spent.value, g, sender, from, to, amount);
    }
  }

  lemma BurnFromExactly(l: Ledger, g: Gate, sender: Address, from: Address, amount: nat)
    requires Valid(l)
    ensures BurnFrom(l, g, sender, from, amount).Ok? <==>
            && from != ZERO_ADDRESS && MaySpend(l, from, sender, amount)
            && HookPasses(g, sender, from, ZERO_ADDRESS) && Balance(l, from) >= amount
    ensures BurnFrom(l, g, sender, from, amount).Ok? ==>
              var l', left := BurnFrom(l, g, sender, from, amount).value, LeftToSpend(l, from, sender, amount);
              && l'.supply == l.supply - amount && left >= 0 && OnlyAllowance(l, l', from, sender, left)
              && forall account: Address :: Balance(l', account) == Balance(l, account) - (if account == from then amount else 0)
  {
    SpendExactly(l, from, sender, amount);
    var spent := SpendAllowance(l, from, sender, amount);
    if spent.Ok? {
      SpentValid(l, from, sender, amount);
      BurnExactly(spent.value, g, sender, from, amount);
    }
  }

  /** Why the ledger operations reject: the first of these that applies. */
  lemma RejectsWith(l: Ledger, g: Gate, sender: Address, from: Address, to: Address, amount: nat)
    requires Valid(l)
    ensures var r := Move(l, g, sender, from, to, amount);
            r.Revert? ==>
              if from == ZERO_ADDRESS || to == ZERO_ADDRESS then r.error == TransferToOrFromZero
              else if Hook(g, sender, from, to).Revert? then r.error == Hook(g, sender, from, to).error
              else r.error == BalanceTooSmall
    ensures var r := Mint(l, g, sender, to, amount);
            r.Revert? ==>
              if to == ZERO_ADDRESS then r.error == TransferToOrFromZero
              else if Hook(g, sender, ZERO_ADDRESS, to).Revert? then r.error == Hook(g, sender, ZERO_ADDRESS, to).error
              else r.error == Panic
    ensures var r := Burn(l, g, sender, from, amount);
            r.Revert? ==>
              if from == ZERO_ADDRESS then r.error == TransferToOrFromZero
              else if Hook(g, sender, from, ZERO_ADDRESS).Revert? then r.error == Hook(g, sender, from, ZERO_ADDRESS).error
              else r.error == BalanceTooSmall
    ensures var r := SpendAllowance(l, from, sender, amount);
            r.Revert? ==>
              r.error == if Allowance(l, from, sender) < amount then AllowanceTooSmall else TransferToOrFromZero
  {
    MoveExactly(l, g, sender, from, to, amount);
    BurnExactly(l, g, sender, from, amount);
    HookIff(g, sender, from, to);
    HookIff(g, sender, from, ZERO_ADDRESS);
  }

  /** Which roles the token's entry points need, and what direct calls do beyond the
      operations above. */
  lemma StepExactly(l: Ledger, g: Gate, sender: Address, roles: Roles, op: Op)
    ensures var r := Step(l, g, sender, roles, op);
            match op
            case TransferOp(to, amount) => r == Move(l, g, sender, sender, to, amount)
            case TransferFromOp(from, to, amount) => r == TransferFrom(l, g, sender, from, to, amount)
            case MintOp(to, amount) => r == if roles.minter then Mint(l, g, sender, to, amount) else Revert(MissingRole)
            case BurnOp(amount) => r == Burn(l, g, sender, sender, amount)
            case BurnFromOp(from, amount) => r == BurnFrom(l, g, sender, from, amount)
            case AdminBurnOp(from, amount) => r == if roles.burner then Burn(l, g, sender, from, amount) else Revert(MissingRole)
            case ApproveOp(spender, amount) => r == Approve(l, sender, spender, amount)
            case IncreaseAllowanceOp(spender, amount) =>
              r == if Allowance(l, sender, spender) + amount > MAX_UINT256 then Revert(Panic)
                   else Approve(l, sender, spender, Allowance(l, sender, spender) + amount)
            case DecreaseAllowanceOp(spender, amount) =>
              r == if Allowance(l, sender, spender) < amount then Revert(AllowanceTooSmall)
                   else Approve(l, sender, spender, Allowance(l, sender, spender) - amount)
  {
  }

  // ------------------------------------------------------------- frozen accounts

  predicate Cleared(g: Gate, account: Address) {
    g.Open? || (account !in g.lists.blocked && account !in g.lists.sanctioned
                && Allowlist.IsAllowed(g.lists.allowlist, g.lists.contracts, account))
  }

  lemma HookClears(g: Gate, sender: Address, from: Address, to: Address)
    requires Hook(g, sender, from, to).Ok?
    ensures g.Gated? ==> !g.paused
    ensures from != ZERO_ADDRESS ==> Cleared(g, from)
    ensures to != ZERO_ADDRESS ==> Cleared(g, to)
    ensures sender != ZERO_ADDRESS ==> Cleared(g, sender)
  {
  }

  /** The two ends of the transfer hook in a call that can change balances. */
  function Ends(c: Call): (Address, Address) {
    match c.op
    case TransferOp(to, _) => (c.sender, to)
    case TransferFromOp(from, to, _) => (from, to)
    case MintOp(to, _) => (ZERO_ADDRESS, to)
    case BurnOp(_) => (c.sender, ZERO_ADDRESS)
    case BurnFromOp(from, _) => (from, ZERO_ADDRESS)
    case AdminBurnOp(from, _) => (from, ZERO_ADDRESS)
    case _ => (ZERO_ADDRESS, ZERO_ADDRESS)
  }

  lemma OnlyHookedEndsChange(l: Ledger, c: Call, account: Address)
    requires Balance(Exec(l, c), account) != Balance(l, account)
    ensures account != ZERO_ADDRESS && (account == Ends(c).0 || account == Ends(c).1)
    ensures Hook(c.gate, c.sender, Ends(c).0, Ends(c).1).Ok?
  {
    match c.op
    case TransferOp(to, amount) =>
    case TransferFromOp(from, to, amount) =>
    case MintOp(to, amount) =>
    case BurnOp(amount) =>
    case BurnFromOp(from, amount) =>
    case AdminBurnOp(from, amount) =>
    case ApproveOp(_, _) =>
    case IncreaseAllowanceOp(_, _) =>
    case DecreaseAllowanceOp(_, _) =>
  }

  /** A balance changes only while the token is not paused, and only if its holder and
      the caller both pass all three lists. */
  lemma BalanceChangeNeedsClearance(l: Ledger, c: Call, account: Address)
    requires Balance(Exec(l, c), account) != Balance(l, account)
    ensures c.gate.Gated? ==> !c.gate.paused
    ensures Cleared(c.gate, account)
    ensures c.sender != ZERO_ADDRESS ==> Cleared(c.gate, c.sender)
  {
    OnlyHookedEndsChange(l, c, account);
    HookClears(c.gate, c.sender, Ends(c).0, Ends(c).1);
  }

  /** Whatever is called, an account that never passes the lists keeps its balance. */
  lemma {:induction false} FrozenBalance(l: Ledger, calls: seq<Call>, account: Address)
    requires forall i | 0 <= i < |calls| :: !Cleared(calls[i].gate, account)
    ensures Balance(Run(l, calls), account) == Balance(l, account)
    decreases |calls|
  {
    if calls != [] {
      if Balance(Exec(l, calls[0]), account) != Balance(l, account) {
        BalanceChangeNeedsClearance(l, calls[0], account);
      }
      FrozenBalance(Exec(l, calls[0]), calls[1..], account);
    }
  }

  /** Over any run the supply still equals the sum of the balances. */
  lemma {:induction false} RunConserves(l: Ledger, calls: seq<Call>)
    requires Valid(l)
    ensures Valid(Run(l, calls))
    decreases |calls|
  {
    if calls != [] {
      if Step(l, calls[0].gate, calls[0].sender, calls[0].roles, calls[0].op).Ok? {
        StepConserves(l, calls[0]);
      }
      RunConserves(Exec(l, calls[0]), calls[1..]);
    }
  }
}
