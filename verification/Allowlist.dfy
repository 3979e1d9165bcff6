/** AllowlistUpgradeable: who may hold the fund token. An account is allowed when it
    is a contract or is verified for one of the currently valid terms. */
module Allowlist {
  import opened Outcomes

  /** `verifications` holds the pairs the nested mapping maps to true. */
  datatype State = State(
    verifications: set<(Address, nat)>,
    terms: seq<string>,
    currentTermIndex: nat,
    validIndexes: seq<nat>)

  const INIT := State({}, [], 0, [])

  predicate IsAllowed(s: State, contracts: set<Address>, account: Address) {
    account in contracts || exists i | 0 <= i < |s.validIndexes| :: (account, s.validIndexes[i]) in s.verifications
  }

  datatype Roles = Roles(admin: bool, setter: bool)

  datatype Op =
    | AddTerm(term: string)
    | SetCurrentTermIndex(index: nat)
    | SetValidTermIndexes(indexes: seq<nat>)
    | AddSelfToAllowlist(termIndex: nat)
    | SetAccountStatus(account: Address, termIndex: nat, status: bool)
    | AddAccountToAllowlist(termIndex: nat, account: Address, v: nat)

  /** `recover` is the signer that signature recovery yields for a term, or its revert. */
  datatype Call = Call(sender: Address, roles: Roles, recover: string -> Result<Address>, op: Op)

  /** _setAccountStatus. */
  function WithStatus(s: State, account: Address, termIndex: nat, status: bool): Result<State> {
    var _ :- Need(termIndex < |s.terms|, InvalidTermIndex);
    Ok(s.(verifications :=
         if status then s.verifications + {(account, termIndex)} else s.verifications - {(account, termIndex)}))
  }

  function Step(s: State, c: Call): Result<State> {
    match c.op
    case AddTerm(term) =>
      var _ :- Need(c.roles.admin, MissingRole);
      Ok(s.(terms := s.terms + [term], currentTermIndex := |s.terms|))
    case SetCurrentTermIndex(index) =>
      var _ :- Need(c.roles.admin, MissingRole);
      var _ :- Need(index < |s.terms|, InvalidTermIndex);
      Ok(s.(currentTermIndex := index))
    case SetValidTermIndexes(indexes) =>
      var _ :- Need(c.roles.admin, MissingRole);
      var _ :- Need(forall i | 0 <= i < |indexes| :: indexes[i] < |s.terms|, InvalidTermIndex);
      Ok(s.(validIndexes := indexes))
    case AddSelfToAllowlist(termIndex) =>
      var _ :- Need((c.sender, termIndex) !in s.verifications, AlreadyVerified);
      WithStatus(s, c.sender, termIndex, true)
    case SetAccountStatus(account, termIndex, status) =>
      var _ :- Need(c.roles.setter, MissingRole);
      WithStatus(s, account, termIndex, status)
    case AddAccountToAllowlist(termIndex, account, v) =>
      var _ :- Need((account, termIndex) !in s.verifications, AlreadyVerified);
      var _ :- Need(v == 27 || v == 28, InvalidVSignature);
      var _ :- Need(termIndex < |s.terms|, Panic);
      var signer :- c.recover(s.terms[termIndex]);
      var _ :- Need(signer == account, InvalidSigner);
      WithStatus(s, account, termIndex, true)
  }

  function Exec(s: State, c: Call): State {
    var r := Step(s, c);
    if r.Ok? then r.value else s
  }

  function Run(s: State, calls: seq<Call>): State
    decreases |calls|
  {
    if calls == [] then s else Run(Exec(s, calls[0]), calls[1..])
  }

  /** Only existing terms are ever referred to, and a term's text never changes. */
  ghost predicate Inv(s: State) {
    && (forall p <- s.verifications :: p.1 < |s.terms|)
    && (forall i | 0 <= i < |s.validIndexes| :: s.validIndexes[i] < |s.terms|)
    && (s.terms != [] ==> s.currentTermIndex < |s.terms|)
  }

  lemma StepKeepsInv(s: State, c: Call)
    requires Inv(s)
    ensures Inv(Exec(s, c)) && s.terms <= Exec(s, c).terms
  {
  }

  lemma {:induction false} RunKeepsInv(s: State, calls: seq<Call>)
    requires Inv(s)
    ensures Inv(Run(s, calls)) && s.terms <= Run(s, calls).terms
    decreases |calls|
  {
    if calls != [] {
      StepKeepsInv(s, calls[0]);
      RunKeepsInv(Exec(s, calls[0]), calls[1..]);
    }
  }

  /** From deployment: after `calls`, and after whatever more follows, only existing
      terms are referred to, and the terms there were are still there. */
  lemma ReachableInv(calls: seq<Call>, more: seq<Call>)
    ensures Inv(Run(INIT, calls)) && Inv(Run(Run(INIT, calls), more))
    ensures Run(INIT, calls).terms <= Run(Run(INIT, calls), more).terms
  {
    RunKeepsInv(INIT, calls);
    RunKeepsInv(Run(INIT, calls), more);
  }

  /** The ways onto the list: oneself or one's signature on a valid term, the setter, or
      the admin making valid a term one is already verified for. */
  ghost predicate Admits(s: State, c: Call, account: Address) {
    match c.op
    case AddSelfToAllowlist(termIndex) => c.sender == account && termIndex in s.validIndexes
    case AddAccountToAllowlist(termIndex, a, _) =>
      a == account && termIndex in s.validIndexes && termIndex < |s.terms| && c.recover(s.terms[termIndex]) == Ok(account)
    case SetAccountStatus(a, termIndex, status) =>
      c.roles.setter && a == account && status && termIndex in s.validIndexes
    case SetValidTermIndexes(indexes) => c.roles.admin && exists i <- indexes :: (account, i) in s.verifications
    case _ => false
  }

  /** An account that was off the list is on it after an accepted call exactly when
      that call was one of those. */
  lemma AdmittedIff(s: State, c: Call, contracts: set<Address>, account: Address)
    requires Inv(s) && Step(s, c).Ok? && !IsAllowed(s, contracts, account)
    ensures IsAllowed(Exec(s, c), contracts, account) <==> Admits(s, c, account)
  {
    var s' := Exec(s, c);
    assert IsAllowed(s', contracts, account) <==> exists i <- s'.validIndexes :: (account, i) in s'.verifications;
    assert forall i <- s.validIndexes :: (account, i) !in s.verifications;
  }

  /** The ways off the list: the setter withdrawing the last valid verification, or the
      admin leaving no valid term one is verified for. */
  ghost predicate Drops(s: State, c: Call, contracts: set<Address>, account: Address) {
    && account !in contracts
    && match c.op
       case SetAccountStatus(a, termIndex, status) =>
         c.roles.setter && a == account && !status
         && forall i <- s.validIndexes :: (account, i) in s.verifications ==> i == termIndex
       case SetValidTermIndexes(indexes) => c.roles.admin && forall i <- indexes :: (account, i) !in s.verifications
       case _ => false
  }

  /** An account that was on the list is off it after an accepted call exactly when that
      call was one of those. */
  lemma DroppedIff(s: State, c: Call, contracts: set<Address>, account: Address)
    requires Step(s, c).Ok? && IsAllowed(s, contracts, account)
    ensures !IsAllowed(Exec(s, c), contracts, account) <==> Drops(s, c, contracts, account)
  {
    var s' := Exec(s, c);
    assert IsAllowed(s', contracts, account) <==>
           account in contracts || exists i <- s'.validIndexes :: (account, i) in s'.verifications;
    assert account in contracts || exists i <- s.validIndexes :: (account, i) in s.verifications;
  }

  /** When each call is accepted. */
  predicate Accepts(s: State, c: Call) {
    match c.op
    case AddTerm(_) => c.roles.admin
    case SetCurrentTermIndex(index) => c.roles.admin && index < |s.terms|
    case SetValidTermIndexes(indexes) => c.roles.admin && forall i | 0 <= i < |indexes| :: indexes[i] < |s.terms|
    case AddSelfToAllowlist(termIndex) => termIndex < |s.terms| && (c.sender, termIndex) !in s.verifications
    case SetAccountStatus(_, termIndex, _) => c.roles.setter && termIndex < |s.terms|
    case AddAccountToAllowlist(termIndex, account, v) =>
      (v == 27 || v == 28) && termIndex < |s.terms| && (account, termIndex) !in s.verifications
      && c.recover(s.terms[termIndex]) == Ok(account)
  }

  /** The status a call gives an account for a term, if it is about them. */
  function Given(c: Call, account: Address, termIndex: nat, was: bool): bool {
    match c.op
    case AddSelfToAllowlist(t) => was || (c.sender == account && t == termIndex)
    case AddAccountToAllowlist(t, a, _) => was || (a == account && t == termIndex)
    case SetAccountStatus(a, t, status) => if a == account && t == termIndex then status else was
    case _ => was
  }

  /** Acceptance of every call, and all it does: who is verified for what afterwards, the
      terms, and the two index settings. */
  lemma StepExactly(s: State, c: Call)
    ensures Step(s, c).Ok? <==> Accepts(s, c)
    ensures Step(s, c).Ok? ==>
              var s' := Step(s, c).value;
              && (forall account: Address, t: nat ::
                    (account, t) in s'.verifications <==> Given(c, account, t, (account, t) in s.verifications))
              && s'.terms == (if c.op.AddTerm? then s.terms + [c.op.term] else s.terms)
              && s'.currentTermIndex == (if c.op.AddTerm? then |s.terms|
                                         else if c.op.SetCurrentTermIndex? then c.op.index else s.currentTermIndex)
              && s'.validIndexes == (if c.op.SetValidTermIndexes? then c.op.indexes else s.validIndexes)
  {
  }

  /** Why a call is rejected: the first of these that applies. */
  lemma RejectsWith(s: State, c: Call)
    requires Step(s, c).Revert?
    ensures Step(s, c).error ==
            match c.op
            case AddTerm(_) => MissingRole
            case SetCurrentTermIndex(_) => if c.roles.admin then InvalidTermIndex else MissingRole
            case SetValidTermIndexes(_) => if c.roles.admin then InvalidTermIndex else MissingRole
            case SetAccountStatus(_, _, _) => if c.roles.setter then InvalidTermIndex else MissingRole
            case AddSelfToAllowlist(t) => if (c.sender, t) in s.verifications then AlreadyVerified else InvalidTermIndex
            case AddAccountToAllowlist(t, account, v) =>
              if (account, t) in s.verifications then AlreadyVerified
              else if v != 27 && v != 28 then InvalidVSignature
              else if t >= |s.terms| then Panic
              else if c.recover(s.terms[t]).Revert? then c.recover(s.terms[t]).error
              else InvalidSigner
  {
  }

  /** Reordering or repeating valid indexes changes nobody's status. */
  lemma OnlyTheSetOfIndexesMatters(s: State, indexes: seq<nat>, contracts: set<Address>, account: Address)
    requires forall i :: i in indexes <==> i in s.validIndexes
    ensures IsAllowed(s.(validIndexes := indexes), contracts, account) <==> IsAllowed(s, contracts, account)
  {
    assert IsAllowed(s, contracts, account) <==>
           account in contracts || exists i <- s.validIndexes :: (account, i) in s.verifications;
    assert IsAllowed(s.(validIndexes := indexes), contracts, account) <==>
           account in contracts || exists i <- indexes :: (account, i) in s.verifications;
  }
}

/** The allowlist as the contract it is, with its index loops. */
module AllowlistContract {
  import opened Outcomes
  import Spec = Allowlist

  class AllowlistUpgradeable {
    var verifications: set<(Address, nat)>
    var terms: seq<string>
    var currentTermIndex: nat
    var validIndexes: seq<nat>

    function Snapshot(): Spec.State
      reads this
    {
      Spec.State(verifications, terms, currentTermIndex, validIndexes)
    }

    constructor ()
      ensures Snapshot() == Spec.INIT
    {
      verifications := {};
      terms := [];
      currentTermIndex := 0;
      validIndexes := [];
    }

    method IsAllowed(contracts: set<Address>, account: Address) returns (allowed: bool)
      ensures allowed <==> account in contracts || exists i <- validIndexes :: (account, i) in verifications
      ensures allowed == Spec.IsAllowed(Snapshot(), contracts, account)
    {
      if account in contracts {
        return true;
      }
      var validIndexesLength := |validIndexes|;
      for i := 0 to validIndexesLength
        invariant forall j | 0 <= j < i :: (account, validIndexes[j]) !in verifications
      {
        if (account, validIndexes[i]) in verifications {
          return true;
        }
      }
      return false;
    }

    method SetValidTermIndexes(isAdmin: bool, indexes: seq<nat>) returns (r: Result<()>)
      modifies this
      ensures r.Ok? <==> isAdmin && forall i | 0 <= i < |indexes| :: indexes[i] < |terms|
      ensures match Spec.Step(old(Snapshot()), Spec.Call(0, Spec.Roles(isAdmin, false), _ => Ok(0),
                                                         Spec.SetValidTermIndexes(indexes)))
              case Ok(s) => r.Ok? && Snapshot() == s
              case Revert(e) => r == Revert(e) && Snapshot() == old(Snapshot())
    {
      if !isAdmin {
        return Revert(MissingRole);
      }
      for i := 0 to |indexes|
        invariant forall j | 0 <= j < i :: indexes[j] < |terms|
      {
        if indexes[i] >= |terms| {
          return Revert(InvalidTermIndex);
        }
      }
      validIndexes := indexes;
      return Ok(());
    }

    method AddTerm(isAdmin: bool, term: string) returns (r: Result<()>)
      modifies this
      ensures match Spec.Step(old(Snapshot()), Spec.Call(0, Spec.Roles(isAdmin, false), _ => Ok(0), Spec.AddTerm(term)))
              case Ok(s) => r.Ok? && Snapshot() == s
              case Revert(e) => r == Revert(e) && Snapshot() == old(Snapshot())
    {
      if !isAdmin {
        return Revert(MissingRole);
      }
      terms := terms + [term];
      r := SetCurrentTermIndex(isAdmin, |terms| - 1);
    }

    method SetCurrentTermIndex(isAdmin: bool, index: nat) returns (r: Result<()>)
      modifies `currentTermIndex
      ensures match Spec.Step(old(Snapshot()), Spec.Call(0, Spec.Roles(isAdmin, false), _ => Ok(0),
                                                         Spec.SetCurrentTermIndex(index)))
              case Ok(s) => r.Ok? && Snapshot() == s
              case Revert(e) => r == Revert(e) && Snapshot() == old(Snapshot())
    {
      if !isAdmin {
        return Revert(MissingRole);
      }
      if index >= |terms| {
        return Revert(InvalidTermIndex);
      }
      currentTermIndex := index;
      return Ok(());
    }

    /** _setAccountStatus. */
    method WriteStatus(account: Address, termIndex: nat, status: bool) returns (r: Result<()>)
      modifies `verifications
      ensures r.Ok? <==> termIndex < |terms|
      ensures match Spec.WithStatus(old(Snapshot()), account, termIndex, status)
              case Ok(s) => r.Ok? && Snapshot() == s
              case Revert(e) => r == Revert(e) && Snapshot() == old(Snapshot())
    {
      if termIndex >= |terms| {
        return Revert(InvalidTermIndex);
      }
      verifications := if status then verifications + {(account, termIndex)} else verifications - {(account, termIndex)};
      return Ok(());
    }

    method AddSelfToAllowlist(sender: Address, termIndex: nat) returns (r: Result<()>)
      modifies `verifications
      ensures match Spec.Step(old(Snapshot()), Spec.Call(sender, Spec.Roles(false, false), _ => Ok(0),
                                                         Spec.AddSelfToAllowlist(termIndex)))
              case Ok(s) => r.Ok? && Snapshot() == s
              case Revert(e) => r == Revert(e) && Snapshot() == old(Snapshot())
    {
      if (sender, termIndex) in verifications {
        return Revert(AlreadyVerified);
      }
      r := WriteStatus(sender, termIndex, true);
    }

    method SetAccountStatus(isSetter: bool, account: Address, termIndex: nat, status: bool) returns (r: Result<()>)
      modifies `verifications
      ensures match Spec.Step(old(Snapshot()), Spec.Call(0, Spec.Roles(false, isSetter), _ => Ok(0),
                                                         Spec.SetAccountStatus(account, termIndex, status)))
              case Ok(s) => r.Ok? && Snapshot() == s
              case Revert(e) => r == Revert(e) && Snapshot() == old(Snapshot())
    {
      if !isSetter {
        return Revert(MissingRole);
      }
      r := WriteStatus(account, termIndex, status);
    }

    method AddAccountToAllowlist(termIndex: nat, account: Address, v: nat, recover: string -> Result<Address>)
      returns (r: Result<()>)
      modifies `verifications
      ensures match Spec.Step(old(Snapshot()), Spec.Call(0, Spec.Roles(false, false), recover,
                                                         Spec.AddAccountToAllowlist(termIndex, account, v)))
              case Ok(s) => r.Ok? && Snapshot() == s
              case Revert(e) => r == Revert(e) && Snapshot() == old(Snapshot())
    {
      if (account, termIndex) in verifications {
        return Revert(AlreadyVerified);
      }
      if v != 27 && v != 28 {
        return Revert(InvalidVSignature);
      }
      if termIndex >= |terms| {
        return Revert(Panic);
      }
      var signer :- recover(terms[termIndex]);
      if signer != account {
        return Revert(InvalidSigner);
      }
      r := WriteStatus(account, termIndex, true);
    }
  }
}
