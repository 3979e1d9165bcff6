/** USBS, the fund token, as the contract it is: the transfer hook asks the allowlist
    contract, and every balance change passes through the hook. Each entry point meets
    the case of Token.Step it stands for. */
module UsbsContract {
  import opened Outcomes
  import opened Token
  import opened AllowlistContract

  class USBS {
    var balances: map<Address, nat>
    var allowances: map<(Address, Address), nat>
    var totalSupply: nat
    var paused: bool
    var allowlist: AllowlistUpgradeable

    function Snapshot(): Ledger
      reads this
    {
      Ledger(balances, allowances, totalSupply)
    }

    /** What the hook sees: the pause flag and the contents of the three lists. */
    function GateOf(blocked: set<Address>, sanctioned: set<Address>, contracts: set<Address>): Gate
      reads this, allowlist
    {
      Gated(paused, Lists(blocked, sanctioned, allowlist.Snapshot(), contracts))
    }

    constructor (allowlist: AllowlistUpgradeable)
      ensures Snapshot() == Ledger(map[], map[], 0) && !paused && this.allowlist == allowlist
    {
      balances, allowances, totalSupply := map[], map[], 0;
      paused := false;
      this.allowlist := allowlist;
    }

    /** The three list checks of one account. */
    method Check(blocked: set<Address>, sanctioned: set<Address>, contracts: set<Address>, account: Address) returns (r: Result<()>)
      ensures r == CheckAccount(GateOf(blocked, sanctioned, contracts).lists, account)
    {
      if account in blocked {
        return Revert(BlockedAccount);
      }
      if account in sanctioned {
        return Revert(SanctionedAccount);
      }
      var allowed := allowlist.IsAllowed(contracts, account);
      return Need(allowed, NotOnAllowlist);
    }

    method BeforeTokenTransfer(blocked: set<Address>, sanctioned: set<Address>, contracts: set<Address>,
                               sender: Address, from: Address, to: Address) returns (r: Result<()>)
      ensures r == Hook(GateOf(blocked, sanctioned, contracts), sender, from, to)
    {
      if paused {
        return Revert(TokenPaused);
      }
      if from != sender && to != sender {
        var _ :- Check(blocked, sanctioned, contracts, sender);
      }
      if from != ZERO_ADDRESS {
        var _ :- Check(blocked, sanctioned, contracts, from);
      }
      if to != ZERO_ADDRESS {
        var _ :- Check(blocked, sanctioned, contracts, to);
      }
      return Ok(());
    }

    /** _transfer. */
    method Transfer(blocked: set<Address>, sanctioned: set<Address>, contracts: set<Address>,
                    sender: Address, from: Address, to: Address, amount: nat) returns (r: Result<()>)
      modifies `balances
      ensures match Token.Move(old(Snapshot()), old(GateOf(blocked, sanctioned, contracts)), sender, from, to, amount)
              case Ok(l) => r.Ok? && Snapshot() == l
              case Revert(e) => r == Revert(e) && Snapshot() == old(Snapshot())
    {
      if from == ZERO_ADDRESS || to == ZERO_ADDRESS {
        return Revert(TransferToOrFromZero);
      }
      var _ :- BeforeTokenTransfer(blocked, sanctioned, contracts, sender, from, to);
      var saved := balances;
      var fromBalance := Balance(Snapshot(), from);
      if fromBalance < amount {
        return Revert(BalanceTooSmall);
      }
      balances := balances[from := fromBalance - amount];
      var toBalance := Balance(Snapshot(), to);
      if toBalance + amount > MAX_UINT256 {
        balances := saved;
        return Revert(Panic);
      }
      balances := balances[to := toBalance + amount];
      return Ok(());
    }

    /** transferFrom. */
    method TransferFrom(blocked: set<Address>, sanctioned: set<Address>, contracts: set<Address>,
                        sender: Address, from: Address, to: Address, amount: nat) returns (r: Result<()>)
      modifies `balances, `allowances
      ensures match Token.TransferFrom(old(Snapshot()), old(GateOf(blocked, sanctioned, contracts)), sender, from, to, amount)
              case Ok(l) => r.Ok? && Snapshot() == l
              case Revert(e) => r == Revert(e) && Snapshot() == old(Snapshot())
    {
      var saved := allowances;
      var spent :- SpendAllowance(Snapshot(), from, sender, amount);
      allowances := spent.allowances;
      r := Transfer(blocked, sanctioned, contracts, sender, from, to, amount);
      if r.Revert? {
        allowances := saved;
      }
    }

    /** mint, by a holder of the minter role. */
    method Mint(blocked: set<Address>, sanctioned: set<Address>, contracts: set<Address>,
                sender: Address, isMinter: bool, to: Address, amount: Uint256) returns (r: Result<()>)
      modifies `balances, `totalSupply
      ensures match Token.Step(old(Snapshot()), old(GateOf(blocked, sanctioned, contracts)), sender,
                               Roles(isMinter, false), MintOp(to, amount))
              case Ok(l) => r.Ok? && Snapshot() == l
              case Revert(e) => r == Revert(e) && Snapshot() == old(Snapshot())
    {
      if !isMinter {
        return Revert(MissingRole);
      }
      if to == ZERO_ADDRESS {
        return Revert(TransferToOrFromZero);
      }
      var _ :- BeforeTokenTransfer(blocked, sanctioned, contracts, sender, ZERO_ADDRESS, to);
      var supply :- CheckedAdd(totalSupply, amount);
      var balance :- CheckedAdd(Balance(Snapshot(), to), amount);
      totalSupply := supply;
      balances := balances[to := balance];
      return Ok(());
    }

    /** _burn, behind burn, burnFrom and the burner's burn. */
    method Burn(blocked: set<Address>, sanctioned: set<Address>, contracts: set<Address>,
                sender: Address, from: Address, amount: nat) returns (r: Result<()>)
      modifies `balances, `totalSupply
      ensures match Token.Burn(old(Snapshot()), old(GateOf(blocked, sanctioned, contracts)), sender, from, amount)
              case Ok(l) => r.Ok? && Snapshot() == l
              case Revert(e) => r == Revert(e) && Snapshot() == old(Snapshot())
    {
      if from == ZERO_ADDRESS {
        return Revert(TransferToOrFromZero);
      }
      var _ :- BeforeTokenTransfer(blocked, sanctioned, contracts, sender, from, ZERO_ADDRESS);
      var accountBalance := Balance(Snapshot(), from);
      if accountBalance < amount {
        return Revert(BalanceTooSmall);
      }
      var supply :- CheckedSub(totalSupply, amount);
      balances := balances[from := accountBalance - amount];
      totalSupply := supply;
      return Ok(());
    }

    /** burn(from, amount): the admin burn. */
    method AdminBurn(blocked: set<Address>, sanctioned: set<Address>, contracts: set<Address>,
                     sender: Address, isBurner: bool, from: Address, amount: Uint256) returns (r: Result<()>)
      modifies `balances, `totalSupply
      ensures match Token.Step(old(Snapshot()), old(GateOf(blocked, sanctioned, contracts)), sender,
                               Roles(false, isBurner), AdminBurnOp(from, amount))
              case Ok(l) => r.Ok? && Snapshot() == l
              case Revert(e) => r == Revert(e) && Snapshot() == old(Snapshot())
    {
      if !isBurner {
        return Revert(MissingRole);
      }
      r := Burn(blocked, sanctioned, contracts, sender, from, amount);
    }

    /** burnFrom. */
    method BurnFrom(blocked: set<Address>, sanctioned: set<Address>, contracts: set<Address>,
                    sender: Address, from: Address, amount: nat) returns (r: Result<()>)
      modifies `balances, `totalSupply, `allowances
      ensures match Token.BurnFrom(old(Snapshot()), old(GateOf(blocked, sanctioned, contracts)), sender, from, amount)
              case Ok(l) => r.Ok? && Snapshot() == l
              case Revert(e) => r == Revert(e) && Snapshot() == old(Snapshot())
    {
      var saved := allowances;
      var spent :- SpendAllowance(Snapshot(), from, sender, amount);
      allowances := spent.allowances;
      r := Burn(blocked, sanctioned, contracts, sender, from, amount);
      if r.Revert? {
        allowances := saved;
      }
    }
  }
}
