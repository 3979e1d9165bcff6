/** The pricer: numbered prices with timestamps, and a pointer to the latest one
    that is maintained as prices arrive in any order. */
module Pricer {
  import opened Outcomes

  datatype PriceInfo = PriceInfo(price: nat, timestamp: nat)

  datatype State = State(
    prices: map<nat, PriceInfo>,
    priceIds: seq<nat>,
    currentPriceId: nat,
    latestPriceId: nat)

  const INIT := State(map[], [], 0, 0)

  /** A mapping entry never written reads as zeros. */
  function Info(s: State, id: nat): PriceInfo {
    if id in s.prices then s.prices[id] else PriceInfo(0, 0)
  }

  function LatestInfo(s: State): PriceInfo {
    Info(s, s.latestPriceId)
  }

  /** Stores a price under the next id; the pointer is left alone. */
  function Append(s: State, info: PriceInfo): Result<State> {
    var priceId :- CheckedAdd(s.currentPriceId, 1);
    Ok(s.(prices := s.prices[priceId := info], priceIds := s.priceIds + [priceId], currentPriceId := priceId))
  }

  function AddPrice(s: State, hasRole: bool, price: nat, timestamp: nat): Result<State> {
    var _ :- Need(hasRole, MissingRole);
    var _ :- Need(price != 0, InvalidPrice);
    var appended :- Append(s, PriceInfo(price, timestamp));
    if timestamp > LatestInfo(appended).timestamp then
      Ok(appended.(latestPriceId := appended.currentPriceId))
    else
      Ok(appended)
  }

  function UpdatePrice(s: State, hasRole: bool, priceId: nat, price: nat): Result<State> {
    var _ :- Need(hasRole, MissingRole);
    var _ :- Need(price != 0, InvalidPrice);
    var _ :- Need(Info(s, priceId).price != 0, PriceIdDoesNotExist);
    Ok(s.(prices := s.prices[priceId := PriceInfo(price, Info(s, priceId).timestamp)]))
  }

  // ------------------------------------------------------------- the specification

  /** Ids are handed out in order and nothing else is stored. */
  ghost predicate IdsInOrder(s: State) {
    && s.priceIds == seq(s.currentPriceId, i => i + 1)
    && (forall id :: id in s.prices <==> 1 <= id <= s.currentPriceId)
  }

  ghost predicate PricesExactlyOnIds(s: State) {
    forall id: nat :: Info(s, id).price != 0 <==> 1 <= id <= s.currentPriceId
  }

  ghost predicate IsMaxTimestamp(s: State, t: nat) {
    forall id | id in s.prices :: s.prices[id].timestamp <= t
  }

  /** The first id with the largest timestamp, or 0 when no timestamp is positive. */
  ghost predicate IsFirstLatest(s: State, latest: nat) {
    && IsMaxTimestamp(s, Info(s, latest).timestamp)
    && (latest in s.prices || (latest == 0 && Info(s, 0).timestamp == 0))
    && (latest in s.prices ==> Info(s, latest).timestamp > 0)
    && (forall id | id in s.prices && id < latest :: s.prices[id].timestamp < Info(s, latest).timestamp)
  }

  lemma FirstLatestUnique(s: State, a: nat, b: nat)
    requires IsFirstLatest(s, a) && IsFirstLatest(s, b) && 0 !in s.prices
    ensures a == b
  {
    if a in s.prices && b in s.prices {
      assert s.prices[a].timestamp <= s.prices[b].timestamp <= s.prices[a].timestamp;
    }
  }

  ghost predicate Inv(s: State) {
    && IdsInOrder(s)
    && PricesExactlyOnIds(s)
    && IsFirstLatest(s, s.latestPriceId)
  }

  datatype Op =
    | AddPriceOp(hasRole: bool, price: nat, timestamp: nat)
    | UpdatePriceOp(hasRole: bool, priceId: nat, price: nat)

  function Step(s: State, op: Op): Result<State> {
    match op
    case AddPriceOp(role, price, timestamp) => AddPrice(s, role, price, timestamp)
    case UpdatePriceOp(role, priceId, price) => UpdatePrice(s, role, priceId, price)
  }

  function Exec(s: State, op: Op): State {
    var r := Step(s, op);
    if r.Ok? then r.value else s
  }

  function Run(s: State, ops: seq<Op>): State
    decreases |ops|
  {
    if ops == [] then s else Run(Exec(s, ops[0]), ops[1..])
  }

  lemma AppendKeepsIds(s: State, info: PriceInfo)
    requires IdsInOrder(s) && Append(s, info).Ok?
    ensures IdsInOrder(Append(s, info).value)
    ensures forall id | id in s.prices :: Info(Append(s, info).value, id) == Info(s, id)
  {
    var s' := Append(s, info).value;
    assert s'.priceIds == seq(s'.currentPriceId, i => i + 1);
  }

  lemma StepKeepsInv(s: State, op: Op)
    requires Inv(s)
    ensures Inv(Exec(s, op))
  {
    if Step(s, op).Ok? {
      match op
      case AddPriceOp(_, price, timestamp) =>
        var info := PriceInfo(price, timestamp);
        AppendKeepsIds(s, info);
        var s' := Append(s, info).value;
        assert Info(s', s.latestPriceId) == LatestInfo(s);
        assert forall id: nat :: Info(s', id) == if id == s'.currentPriceId then info else Info(s, id);
      case UpdatePriceOp(_, priceId, price) =>
        var s' := Step(s, op).value;
        assert forall id: nat :: Info(s', id).timestamp == Info(s, id).timestamp;
        assert forall id: nat :: Info(s', id).price == if id == priceId then price else Info(s, id).price;
    }
  }

  /** In every reachable state the ids are 1..currentPriceId, prices are nonzero
      exactly there, and the pointer is the first id with the largest timestamp. */
  lemma {:induction false} ReachableInv(s: State, ops: seq<Op>)
    requires Inv(s)
    ensures Inv(Run(s, ops))
    decreases |ops|
  {
    if ops != [] {
      StepKeepsInv(s, ops[0]);
      ReachableInv(Exec(s, ops[0]), ops[1..]);
    }
  }

  lemma InitInv()
    ensures Inv(INIT)
  {
    assert forall id: nat :: Info(INIT, id) == PriceInfo(0, 0);
  }

  /** The pointer of a run is determined by the stored timestamps alone: any way of
      computing the first latest id gives the pointer. */
  lemma LatestPointerMeetsSpec(ops: seq<Op>, latest: nat)
    ensures IsFirstLatest(Run(INIT, ops), latest) <==> latest == Run(INIT, ops).latestPriceId
  {
    InitInv();
    ReachableInv(INIT, ops);
    var s := Run(INIT, ops);
    if IsFirstLatest(s, latest) {
      FirstLatestUnique(s, latest, s.latestPriceId);
    }
  }

  // ------------------------------------------------------------- each call, in terms of its arguments

  /** addPrice succeeds exactly for the updater, with a price, while ids last; it stores
      just what it was given under the next id, and moves the pointer there exactly if
      the timestamp is larger than the pointer's. */
  lemma AddPriceExactly(s: State, hasRole: bool, price: nat, timestamp: nat)
    requires IdsInOrder(s) && s.latestPriceId <= s.currentPriceId
    ensures AddPrice(s, hasRole, price, timestamp).Ok? <==> hasRole && price > 0 && s.currentPriceId < MAX_UINT256
    ensures AddPrice(s, hasRole, price, timestamp).Revert? ==>
              AddPrice(s, hasRole, price, timestamp).error ==
              if !hasRole then MissingRole else if price == 0 then InvalidPrice else Panic
    ensures AddPrice(s, hasRole, price, timestamp).Ok? ==>
              var s', id := AddPrice(s, hasRole, price, timestamp).value, s.currentPriceId + 1;
              && s'.currentPriceId == id && s'.priceIds == s.priceIds + [id]
              && Info(s', id) == PriceInfo(price, timestamp)
              && (forall k: nat | k != id :: Info(s', k) == Info(s, k))
              && s'.latestPriceId == if timestamp > LatestInfo(s).timestamp then id else s.latestPriceId
  {
  }

  /** Correcting a price needs the updater, a price, and an id that has one; it moves
      neither the pointer nor any other entry. */
  lemma UpdatePriceExactly(s: State, hasRole: bool, priceId: nat, price: nat)
    ensures UpdatePrice(s, hasRole, priceId, price).Ok? <==> hasRole && price > 0 && Info(s, priceId).price > 0
    ensures UpdatePrice(s, hasRole, priceId, price).Revert? ==>
              UpdatePrice(s, hasRole, priceId, price).error ==
              if !hasRole then MissingRole else if price == 0 then InvalidPrice else PriceIdDoesNotExist
    ensures UpdatePrice(s, hasRole, priceId, price).Ok? ==>
              var s' := UpdatePrice(s, hasRole, priceId, price).value;
              && s'.latestPriceId == s.latestPriceId && s'.priceIds == s.priceIds && s'.currentPriceId == s.currentPriceId
              && forall id: nat :: Info(s', id) ==
                   if id == priceId then PriceInfo(price, Info(s, id).timestamp) else Info(s, id)
  {
  }

  // ------------------------------------------------------------- the list the pricer stands for

  /** What each call does to a plain list of prices, oldest first, with no ids, map or
      pointer. */
  function Recorded(list: seq<PriceInfo>, op: Op): seq<PriceInfo> {
    match op
    case AddPriceOp(role, price, timestamp) =>
      if role && price > 0 && |list| < MAX_UINT256 then list + [PriceInfo(price, timestamp)] else list
    case UpdatePriceOp(role, id, price) =>
      if role && price > 0 && 1 <= id <= |list| then list[id - 1 := PriceInfo(price, list[id - 1].timestamp)] else list
  }

  function History(ops: seq<Op>): seq<PriceInfo> {
    if ops == [] then [] else Recorded(History(ops[..|ops| - 1]), ops[|ops| - 1])
  }

  /** Id k is the k-th entry of the list, and there are no others. */
  ghost predicate Keeps(s: State, list: seq<PriceInfo>) {
    && s.currentPriceId == |list|
    && forall id: nat :: Info(s, id) == if 1 <= id <= |list| then list[id - 1] else PriceInfo(0, 0)
  }

  lemma StepKeepsList(s: State, list: seq<PriceInfo>, op: Op)
    requires Inv(s) && Keeps(s, list)
    ensures Keeps(Exec(s, op), Recorded(list, op))
  {
    match op
    case AddPriceOp(role, price, timestamp) => AddPriceExactly(s, role, price, timestamp);
    case UpdatePriceOp(role, id, price) => UpdatePriceExactly(s, role, id, price);
  }

  lemma {:induction false} RunSnoc(s: State, ops: seq<Op>)
    requires ops != []
    ensures Run(s, ops) == Exec(Run(s, ops[..|ops| - 1]), ops[|ops| - 1])
    decreases |ops|
  {
    if |ops| > 1 {
      RunSnoc(Exec(s, ops[0]), ops[1..]);
      assert ops[1..][..|ops| - 2] == ops[..|ops| - 1][1..];
    }
  }

  /** After any calls the pricer holds exactly what the calls gave it: the last price
      given for each id, with the timestamp it was added with. */
  lemma {:induction false} RunKeepsHistory(ops: seq<Op>)
    ensures Keeps(Run(INIT, ops), History(ops))
  {
    if ops != [] {
      var before := ops[..|ops| - 1];
      RunKeepsHistory(before);
      RunSnoc(INIT, ops);
      InitInv();
      ReachableInv(INIT, before);
      StepKeepsList(Run(INIT, before), History(before), ops[|ops| - 1]);
    }
  }

  /** The first position with the largest timestamp. */
  ghost predicate FirstLatestAt(list: seq<PriceInfo>, k: nat) {
    && k < |list|
    && (forall i | 0 <= i < |list| :: list[i].timestamp <= list[k].timestamp)
    && (forall i | 0 <= i < k :: list[i].timestamp < list[k].timestamp)
  }

  /** getLatestPrice after any calls: the price last given for the first latest entry of
      the list, or 0 when no timestamp is positive. */
  lemma LatestPriceOfRun(ops: seq<Op>, k: nat)
    requires FirstLatestAt(History(ops), k)
    ensures LatestInfo(Run(INIT, ops)).price == if History(ops)[k].timestamp > 0 then History(ops)[k].price else 0
  {
    RunKeepsHistory(ops);
    var s, list := Run(INIT, ops), History(ops);
    InitInv();
    ReachableInv(INIT, ops);
    if list[k].timestamp > 0 {
      assert Info(s, k + 1) == list[k];
      assert forall id | id in s.prices :: s.prices[id] == Info(s, id) == list[id - 1];
      LatestPointerMeetsSpec(ops, k + 1);
    } else {
      assert forall id: nat :: Info(s, id).timestamp == 0;
      LatestPointerMeetsSpec(ops, 0);
    }
  }
}

/** The pricer as the contract it is. */
module PricerContract {
  import opened Outcomes
  import Spec = Pricer

  class Pricer {
    var prices: map<nat, Spec.PriceInfo>
    var priceIds: seq<nat>
    var currentPriceId: nat
    var latestPriceId: nat

    function Snapshot(): Spec.State
      reads this
    {
      Spec.State(prices, priceIds, currentPriceId, latestPriceId)
    }

    constructor ()
      ensures Snapshot() == Spec.INIT && Spec.Inv(Snapshot())
    {
      prices := map[];
      priceIds := [];
      currentPriceId := 0;
      latestPriceId := 0;
      new;
      Spec.InitInv();
    }

    function GetPrice(priceId: nat): (price: nat)
      reads this
      ensures price == Spec.Info(Snapshot(), priceId).price
    {
      if priceId in prices then prices[priceId].price else 0
    }

    /** The price of the first entry with the largest timestamp. */
    method GetLatestPrice() returns (price: nat)
      requires Spec.Inv(Snapshot())
      ensures Spec.IsFirstLatest(Snapshot(), latestPriceId) && price == Spec.Info(Snapshot(), latestPriceId).price
      ensures price == 0 <==> forall id | id in prices :: prices[id].timestamp == 0
    {
      price := GetPrice(latestPriceId);
    }

    method AddPrice(hasRole: bool, price: nat, timestamp: nat) returns (r: Result<()>)
      modifies this
      ensures match Spec.AddPrice(old(Snapshot()), hasRole, price, timestamp)
              case Ok(s) => r.Ok? && Snapshot() == s
              case Revert(e) => r == Revert(e) && Snapshot() == old(Snapshot())
      ensures old(Spec.Inv(Snapshot())) ==> Spec.Inv(Snapshot())
    {
      ghost var op := Spec.AddPriceOp(hasRole, price, timestamp);
      if Spec.Inv(Snapshot()) {
        Spec.StepKeepsInv(Snapshot(), op);
      }
      if !hasRole {
        return Revert(MissingRole);
      }
      if price == 0 {
        return Revert(InvalidPrice);
      }
      var priceId :- CheckedAdd(currentPriceId, 1);
      currentPriceId := priceId;
      prices := prices[priceId := Spec.PriceInfo(price, timestamp)];
      priceIds := priceIds + [priceId];
      if timestamp > Spec.LatestInfo(Snapshot()).timestamp {
        latestPriceId := priceId;
      }
      return Ok(());
    }

    method UpdatePrice(hasRole: bool, priceId: nat, price: nat) returns (r: Result<()>)
      modifies this
      ensures match Spec.UpdatePrice(old(Snapshot()), hasRole, priceId, price)
              case Ok(s) => r.Ok? && Snapshot() == s
              case Revert(e) => r == Revert(e) && Snapshot() == old(Snapshot())
      ensures old(Spec.Inv(Snapshot())) ==> Spec.Inv(Snapshot())
    {
      ghost var op := Spec.UpdatePriceOp(hasRole, priceId, price);
      if Spec.Inv(Snapshot()) {
        Spec.StepKeepsInv(Snapshot(), op);
      }
      if !hasRole {
        return Revert(MissingRole);
      }
      if price == 0 {
        return Revert(InvalidPrice);
      }
      if GetPrice(priceId) == 0 {
        return Revert(PriceIdDoesNotExist);
      }
      var oldPriceInfo := prices[priceId];
      prices := prices[priceId := Spec.PriceInfo(price, oldPriceInfo.timestamp)];
      return Ok(());
    }
  }
}
