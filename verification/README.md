# USBS fund accounting: a verified model

Brivo's USBS contracts take dollar collateral in, issue an allowlisted fund token against
it at prices set by operators, and pay collateral back when the token is redeemed. This
project models the parts that decide whether the books balance (the hub, the USBS manager,
the pricer, both rate-limited oracles, the allowlist and the token's transfer hook) and
proves properties of every run of them.

## How the model is built

- **Calls.** Every entry point is a function from a state to a `Result`: the new state, or
  the error it reverts with. A run is any sequence of calls by anybody; a call that reverts
  leaves everything as it was. `uint256` and `int256` range checks, truncating signed
  division, wrapping EVM words and rounding are all explicit (`Outcomes`, `FixedPoint`,
  `EvmWord`, `ComparisonOracle`).
- **Contracts.** Each contract that updates storage is also a class (`HubContract`,
  `PricerContract`, `PricerWithOracleContract`, `RateOracleContract`,
  `ComparisonOracleContract`, `AllowlistContract`, `UsbsContract`) whose methods assign the
  fields in place, run the source's loops, and undo their writes where the source reverts
  halfway. Every method is proved equal to the function of the same entry point, so the laws
  about runs of functions are laws about the classes.
- **Environment.** The price source, the blocklist and sanctions list, the allowlist and the
  roles can all be replaced or rewritten between two calls. Each call therefore carries its
  own arbitrary `Context`; nothing is assumed about how contexts of different calls relate,
  not even that time advances, unless a lemma says so.
- **Event log.** The hub's log is part of its state. `HubLedger` gives each event a meaning
  (`Apply`) and a justification (`Guard`); `HubRefinement` proves that every run's storage is
  the replay of its own log and that every logged event was justified; the fund's laws are
  then proved once, about justified logs, and carried back to runs in `HubRuns`.
- **Missing entries.** An unwritten mapping entry reads as zeros, and writing zeros is the
  same as deleting (`HubLedger.Put`).

Modules, from the bottom up: `Outcomes`, `Division`, `FixedPoint`, `EvmWord`, `Compounding`,
`MapSums`; `RateOracle`, `ComparisonOracle`, `Pricer`, `PricerWithOracle`; `Allowlist`,
`Token`, `UsbsContract`; `HubLedger`, `Hub`, `HubEvents`, `HubRefinement`, `HubRuns`, `HubHolders`,
`HubCollateral`, `HubBatches`, `HubAcceptance`, `HubOperations`, `HubAuthority`, `HubContract`.

## Where the code and its documentation differ

The model follows the code.

- `PricerWithOracle.sol:89-90` says the latest pricer timestamp is never ahead of the
  oracle's. That holds throughout a run exactly when no accepted `addPrice` is stamped later than both
  its block and the latest price (`PricerWithOracle.CommentHoldsIff`); otherwise the catch-up call can move the pointer to
  an older entry (`PricerWithOracle.CommentCanFail`).
- `RWAOracleExternalComparisonCheck.sol:124` promises a change below 200 basis points, and
  lines 45-47 and 125-126 a band of 0.74% around the feed's move. Truncation widens these to
  strictly less than 2.01%, and 0.75% or 0.76% (`ComparisonOracle.AcceptedStepBound`).
  `DocumentedBoundsFail` gives one accepted update beyond each. The limit can be reached from a
  price exactly when `ceil(price/50)*10000 < 201*price` (`LimitReachedIff`). An accepted update
  keeps the band exactly when its truncated changes are at most 72 apart, or 73 or 74 apart
  with truncated-away parts that do not reach further out (`BandKeptIff`); at stored values
  above 10000 units some accepted update always breaks it (`BandBreakableIff`).
- The same oracle accepts a deployment at a price that is not positive, and stores a feed
  answer of zero. Either locks it for ever, and nothing else does
  (`ComparisonOracle.LockedIff`, `DeployedLockedIff`, `OneUpdateFromLocked`). From a price of
  few units some feed moves admit no next price at all (`AdmitsEveryMoveIff` says from which).
- The repository's README says every deposit has a unique id. A proof whose hash equals a
  future sequential id is overwritten by the subscription that receives that id
  (`HubRuns.CollidingProofIsLost`, `CollidingProofExample`). Deposits are conserved exactly
  when every accepted subscription and proof finds no amount at its id (`HubRuns.RunConservation`).
- The repository's README says that every added price is sent to the oracle. Exactly those with
  a newer timestamp than the latest price are (`PricerWithOracle.SentToOracleIff`,
  `OldPriceIsNotSent`).

## Model

| member | source | states |
|---|---|---|
| HubRuns.WholeRunSolvency | contracts/RWAHub.sol:129-292 | From any state, over any run: if some q is at most every mint price and at least every redemption price, then pending deposits, supply and pending redemptions valued at q, plus all collateral paid out (fees included) and all off-chain burns, never exceed the starting value plus what was deposited, with overwrites and outside mints accounted for explicitly |
| HubRuns.SolvencySinceDeployment | contracts/RWAHub.sol:129-292 | A deployed hub whose records are not overwritten and which is the only minter never pays out more collateral, fees included, than was deposited after fees, beyond what tokens existing at deployment are worth at q |
| HubRuns.DustAtConstantPrice | contracts/RWAHub.sol:195-292 | At one price p the value of everything still owed or paid falls short of the inflow by at least 0 and at most (p-1) per mint claim plus (scale-1) per redemption claim |
| HubRuns.RunConservation | contracts/RWAHub.sol:146-150 | Without overwrites, deposits received equal live records plus amounts consumed by mints plus amounts written over; the first two alone exactly when every accepted subscription and proof found no amount at its id, as when proof hashes lie outside the sequential ids; tokens burned on chain equal pending plus redeemed amounts always; supply follows mints and burns |
| HubRuns.CollidingProofIsLost | contracts/RWAHub.sol:146-151 | On any hub and for any two amounts: a proof keyed by the next sequential id followed by a subscription brings both deposits in and leaves only the second |
| HubRuns.CollidingProofExample | contracts/RWAHub.sol:146-151 | Such a run of a freshly deployed hub: 20100 units in, 20000 there |
| HubRuns.RunDisplaces | contracts/RWAHub.sol:146-151 | The deposits a run's log displaces are exactly the amounts its accepted calls found at the ids they wrote |
| HubRuns.RunMintSafety | contracts/usbs/USBSManager.sol:75-86 | Every completed mint consumes one creation of its id that no other mint used, with its price id assigned since, a claim time that is not in the future set since the id's last mint, and pays the created user the created amount at the flooring rate |
| HubRuns.RunClaimsOnce | contracts/RWAHub.sol:195-292 | Mints of an id never outnumber its creations; without overwrites no redemption is paid twice and a pending one has not been paid |
| HubRuns.RunRedemptionIds | contracts/RWAHubOffChainRedemptions.sol:53-71 | On-chain and off-chain requests draw strictly increasing, hence distinct, ids; without overwrites every id not yet handed out has no user and no amount, even if a price id was preset there |
| HubRuns.RunKeepsSound | contracts/RWAHub.sol:502-527 | In every reachable state fees are at most 10000 bps and both tokens' balances sum to their supplies |
| HubRuns.FeesNeverUnderflow | contracts/RWAHub.sol:651-668 | In every reachable state neither after-fee subtraction can revert, and a larger amount never leaves less |
| HubRuns.DeployedFresh | contracts/RWAHub.sol:77-118 | Every successful deployment starts from empty books, zero fees, counters at 1 and a positive decimals multiplier |
| HubHolders.RunBalances | contracts/RWAHub.sol:195-239 | Through the hub alone every account's fund tokens equal its initial balance plus the mints completed for it minus what it redeemed on and off chain |
| HubHolders.FrozenThroughout | contracts/usbs/USBSManager.sol:57-64 | Whatever is called on hub or token, an account that stays blocked or sanctioned at the hub and fails one of the token's lists keeps its fund tokens, and no deposit, mint, redemption, payment or overwrite names it |
| HubCollateral.RunCollateral | contracts/RWAHub.sol:153-291 | When only the hub moves collateral, every account's balance is its first one plus the flows of the run's events, under the payment addresses of each call's time |
| HubCollateral.AssetSenderPays | contracts/RWAHub.sol:275-291 | Over a run the asset sender's debit is exactly what the books count as paid, fees included |
| HubCollateral.DepositAddressReceives | contracts/RWAHub.sol:157-161 | Over a run the deposit address's credit is exactly the after-fee subscriptions |
| HubRefinement.StepRefines | contracts/RWAHub.sol:129-459 | Each successful call emits only events that were justified when emitted, and replaying them turns the old storage into the new |
| HubRefinement.RunRefines | contracts/RWAHub.sol:129-459 | After any run the storage is the replay of the run's own log, all of whose entries are justified |
| HubLedger.Conservation | contracts/RWAHub.sol:146-287 | Over any justified log the three balance sheets (deposits, redemptions, supply) hold as equations |
| HubLedger.RedemptionsNeverDisplaced | contracts/RWAHub.sol:233-234 | Without overwrites a new redemption never lands on a live one |
| HubLedger.DepositsNeverDisplaced | contracts/RWAHub.sol:146-151 | With proofs keyed outside the sequential ids no deposit is ever written over |
| HubLedger.ExchangeBounds | contracts/RWAHub.sol:677-699 | With mint prices at least q and redemption prices at most q, mints give out and redemptions pay no more than the value at q of what they took |
| HubLedger.DustBounds | contracts/RWAHub.sol:677-699 | At a constant price the accumulated rounding loss is between 0 and one price unit per mint plus one scale unit per redemption |
| HubLedger.ValueEquation | contracts/RWAHub.sol:195-292 | The potential behind solvency as an exact equation at any price |
| HubLedger.Solvency | contracts/RWAHub.sol:195-292 | The potential never exceeds what was put in, over any justified log |
| HubLedger.MintSafety | contracts/usbs/USBSManager.sol:75-86 | The log form of mint safety, with the indices of the creation, price assignment and claim-time entries as witnesses |
| HubLedger.MintsAtMostCreations | contracts/RWAHub.sol:195-219 | Mints of an id, plus one if it is live, never exceed its creations |
| HubLedger.RequestIdsIncrease | contracts/RWAHubOffChainRedemptions.sol:61 | Later requests of either kind have larger ids |
| HubLedger.PaidAtMostOnce | contracts/RWAHub.sol:256-273 | Without overwrites each redemption is paid at most once |
| HubBatches.BatchIsSingles | contracts/RWAHub.sol:250-292 | A redemption batch with its single accumulated fee transfer succeeds exactly when the single claims, each with its own fee transfer, do, and leaves the same state and events (payer distinct from payees and fee recipient) |
| HubBatches.ClaimRedemptionPays | contracts/RWAHub.sol:255-291 | A batch debits the asset sender by exactly the collateral due, credits each user what its events say and the fee recipient exactly the difference, and names distinct ids |
| HubBatches.ClaimedRedemptionsAreGone | contracts/RWAHub.sol:258-273 | A batch that succeeds has pairwise distinct ids, deletes exactly those records and keeps all others |
| HubBatches.ClaimMintAnyOrder | contracts/RWAHub.sol:181-219 | Whether a mint batch succeeds and the state it leaves do not depend on its order, and it succeeds only on distinct ids |
| HubBatches.ClaimedMintsAreGone | contracts/RWAHub.sol:198-208 | A mint batch that succeeds deletes exactly its records and keeps all others |
| HubBatches.DueIsPaid | contracts/RWAHub.sol:264-287 | The collateral due by a batch's events is what the ledger's totals count as paid |
| HubBatches.SubscriptionTransfers | contracts/RWAHub.sol:142-161 | A subscription records the after-fee amount, never negative, for the sender and transfers exactly fee and remainder |
| HubBatches.FeeThenPayMoves | contracts/RWAHub.sol:153-161 | Those two transfers debit the source by their sum, credit each destination its part, and move no other balance |
| HubAcceptance.ClaimMintSucceedsIff | contracts/RWAHub.sol:181-219 | A mint batch succeeds exactly when minting is not paused, its ids are distinct, each is claimable now for a user who may hold, and the supply has room for all of it |
| HubAcceptance.ClaimRedemptionSucceedsIff | contracts/RWAHub.sol:250-292 | A redemption batch succeeds exactly when redemptions are not paused, its ids are distinct, each is payable, the asset sender's balance and allowance cover all collateral due, and any fees have a recipient |
| HubAcceptance.SubscriptionSucceedsIff | contracts/RWAHub.sol:129-170 | A subscription succeeds exactly when not paused, the sender unrestricted, the amount in range, fees have a recipient, and the sender's balance and allowance to the hub cover fee and deposit, also when the sender receives one of them |
| HubAcceptance.RedemptionRequestsSucceedIff | contracts/RWAHub.sol:227-239 | Both kinds of redemption request succeed exactly under their own pause switch and minimum and the same condition on the sender's tokens |
| HubAcceptance.ClaimRedemptionReports | contracts/RWAHub.sol:256-287 | Each claim's event, in order: the record's user and amount, the price of its price id, and the collateral due at that price less the current fee |
| HubAcceptance.ClaimMintsReport | contracts/RWAHub.sol:196-218 | Each mint's event, in order: the record's user and amount, the price of its price id, and the tokens it is worth |
| HubOperations.InitExactly | contracts/RWAHub.sol:77-118 | When a deployment succeeds, and its whole initial state: multiplier, minimums, addresses, counters, fees, switches |
| HubOperations.RequestRedemptionExactly | contracts/RWAHub.sol:227-239 | An accepted request burns exactly the amount asked from the sender and its allowance, records exactly that for the sender under the next id, and changes nothing else |
| HubOperations.RequestOffchainExactly | contracts/RWAHubOffChainRedemptions.sol:53-71 | The same without a record, reporting the destination |
| HubOperations.AddProofExactly | contracts/RWAHub.sol:310-328 | When a proof is accepted, and that it records the given user and amount at its hash alone |
| HubOperations.SetPriceIdForDepositsExactly | contracts/RWAHub.sol:342-360 | A batch succeeds exactly for the price-id setter, with equal lengths, when each deposit has a user and no price id at its turn; each listed deposit gets the price id last given for it, all else is unchanged, and each assignment is reported in order |
| HubOperations.SetPriceIdForRedemptionsExactly | contracts/RWAHub.sol:368-383 | The same for redemption ids, which need no record |
| HubOperations.SetClaimableTimestampExactly | contracts/usbs/USBSManager.sol:116-129 | Accepted exactly from the timestamp setter for a time not past; every listed id gets that time and nothing else changes |
| HubOperations.OverwriteDepositorExactly | contracts/RWAHub.sol:400-423 | When accepted, and that exactly the given record replaces and is reported with the old one |
| HubOperations.OverwriteRedeemerExactly | contracts/RWAHub.sol:436-459 | When accepted, and that exactly the given record replaces and is reported with the old one |
| HubOperations.ConfigureExactly | contracts/RWAHub.sol:467-612 | Which role and value each setter needs, which error it reverts with, and that it changes its own setting to the given value and nothing else |
| HubOperations.SubscriptionTermsRejectWith | contracts/RWAHub.sol:129-143 | Which error a subscription reverts with before it records anything, in order |
| HubOperations.SubscriptionRejectsWith | contracts/RWAHub.sol:142-161 | Which errors it can revert with after that |
| HubOperations.RedemptionRequestsRejectWith | contracts/RWAHub.sol:227-236 | Which error a rejected redemption request of either kind reverts with |
| HubOperations.MintClaimRejectsWith | contracts/usbs/USBSManager.sol:75-86 | Which error a rejected mint claim reverts with, in order |
| HubOperations.RedemptionClaimRejectsWith | contracts/RWAHub.sol:256-270 | Which error a rejected redemption claim reverts with, in order |
| HubOperations.ClaimsRejectWhenPaused | contracts/RWAHub.sol:181-292 | Each kind of claim reverts under its own pause switch |
| HubOperations.OperatorCallsRejectWith | contracts/RWAHub.sol:310-459 | Which error rejected proofs, overwrites and claim times revert with |
| HubOperations.PriceIdsRejectWith | contracts/RWAHub.sol:342-375 | Which error a price-id batch reverts with before its first turn |
| HubOperations.DepositTurn | contracts/RWAHub.sol:351-358 | One turn of the deposit batch: when it passes, its errors, and the one record it changes |
| HubOperations.RedemptionTurn | contracts/RWAHub.sol:377-381 | One turn of the redemption batch: when it passes, its error, and the one record it changes |
| HubAuthority.OutsidersReleaseNothing | contracts/RWAHub.sol:342-612 | While nobody with a role calls, no setting changes, no claim time is set, and every record that has a price id at the end is the record it was at the start |
| HubAuthority.OutsiderStep | contracts/RWAHub.sol:129-292 | One call without roles leaves every record as it was, deletes a claimed one, or adds the caller's own unpriced request |
| HubContract.USBSManager.constructor | contracts/usbs/USBSManager.sol:23-47 | Deploys into the state of `Hub.Init`, off-chain minimum included |
| HubContract.USBSManager.RequestSubscription | contracts/RWAHub.sol:129-170 | In-place subscription with rollback equals its specification, log included |
| HubContract.USBSManager.ClaimMint | contracts/RWAHub.sol:181-188 | The batch loop equals the fold of single claims, and one failing claim reverts everything |
| HubContract.USBSManager.ClaimMintOne | contracts/usbs/USBSManager.sol:75-86 | The claim-time checks around the parent's claim, then the deletion of the claim time |
| HubContract.USBSManager.ClaimMintBase | contracts/RWAHub.sol:195-219 | One claim: reverts without price id or price, deletes the record, mints to its user |
| HubContract.USBSManager.RequestRedemption | contracts/RWAHub.sol:227-239 | In-place redemption request with rollback equals its specification |
| HubContract.USBSManager.RequestRedemptionServicedOffchain | contracts/RWAHubOffChainRedemptions.sol:53-71 | Off-chain request: takes the next shared id and burns, without a record |
| HubContract.USBSManager.ClaimRedemption | contracts/RWAHub.sol:250-292 | The loop with its running fee total and the final fee transfer equals its specification, all or nothing |
| HubContract.USBSManager.AddProof | contracts/RWAHub.sol:310-328 | Records a proof unless its hash has a user |
| HubContract.USBSManager.SetPriceIdForDeposits | contracts/RWAHub.sol:342-360 | Batch assignment, all or nothing, only to records with a user and no price id |
| HubContract.USBSManager.SetPriceIdForRedemptions | contracts/RWAHub.sol:368-383 | Batch assignment, all or nothing, to ids without a price id, existing or not |
| HubContract.USBSManager.SetClaimableTimestamp | contracts/usbs/USBSManager.sol:116-129 | The loop writes one claim time, not in the past, to every listed id |
| HubContract.USBSManager.OverwriteDepositor | contracts/RWAHub.sol:400-423 | Replaces a record and logs the old one |
| HubContract.USBSManager.OverwriteRedeemer | contracts/RWAHub.sol:436-459 | Replaces a record and logs the old one |
| HubContract.USBSManager.Configure | contracts/RWAHub.sol:467-612 | Fee, minimum, payment address and pause setters with their roles and bounds |
| FixedPoint.MintAmountIsFloor | contracts/RWAHub.sol:677-684 | The checked mint computation succeeds exactly when the price is set and the scaled deposit fits, and then rounds down once |
| FixedPoint.RedemptionAmountIsFloor | contracts/RWAHub.sol:693-699 | The two flooring divisions of a redemption equal one division by the product; it fails only on overflow |
| FixedPoint.MintThenRedeem | contracts/RWAHub.sol:677-719 | Exact loss of minting and redeeming at one price, never a gain, at most one unit when the price is at most the scale |
| FixedPoint.RedeemThenMint | contracts/RWAHub.sol:677-719 | Exact loss of the reverse trip and its bound |
| FixedPoint.AfterFeeMonotone | contracts/RWAHub.sol:651-668 | With fees up to 100% the after-fee amount is non-negative, monotone, and zero exactly for nothing or at 100% |
| FixedPoint.SplitFees | contracts/RWAHub.sol:651-655 | n parts after fees sum to between after(total) and after(total)+n-1 |
| FixedPoint.SplitMints | contracts/RWAHub.sol:677-684 | n parts mint between mint(total)-(n-1) and mint(total) |
| EvmWord.MulDivUpCorrect | contracts/rwaOracles/RWAOracleRateCheck.sol:116-132 | The assembly, in wrapping words with x/0 = 0, reverts exactly on a zero denominator or an overflowing product and otherwise gives the quotient rounded up |
| EvmWord.GuardIsOverflowTest | contracts/rwaOracles/RWAOracleRateCheck.sol:123-124 | The single comparison in the guard is an exact overflow test |
| RateOracle.AcceptsIff | contracts/rwaOracles/RWAOracleRateCheck.sol:69-86 | setPrice accepts exactly when role, sign, 23-hour window, product range and 10000·change ≤ 100·price hold, and then stores just the new price and the block time |
| RateOracle.RejectsWith | contracts/rwaOracles/RWAOracleRateCheck.sol:69-78 | Which error each rejected call reverts with |
| RateOracle.InitExactly | contracts/rwaOracles/RWAOracleRateCheck.sol:39-51 | Deployment succeeds exactly at a positive price and stores it with the block time |
| RateOracle.RunHoldsLastAccepted | contracts/rwaOracles/RWAOracleRateCheck.sol:69-86 | After any run the oracle holds the price and time of its last accepted call |
| RateOracle.OneCall | contracts/rwaOracles/RWAOracleRateCheck.sol:69-86 | One call moves the price by at most 1% and only after a full window |
| RateOracle.RateEnvelope | contracts/rwaOracles/RWAOracleRateCheck.sol:69-109 | In any run lasting T seconds the price stays within floor(T/82800) compounded steps of 1% |
| RateOracleContract.RWAOracleRateCheck.constructor | contracts/rwaOracles/RWAOracleRateCheck.sol:39-51 | Deploys with a positive price stamped with the block time |
| RateOracleContract.RWAOracleRateCheck.SetPrice | contracts/rwaOracles/RWAOracleRateCheck.sol:69-86 | The in-place update equals its specification, and a revert changes nothing |
| ComparisonOracle.AcceptsIff | contracts/rwaOracles/RWAOracleExternalComparisonCheck.sol:135-205 | The complete acceptance condition of an update from any storable state, overflow and non-positive stored values included; an accepted one stores the new price, the block time and the feed's round as it came |
| ComparisonOracle.RejectsBeforeMoves | contracts/rwaOracles/RWAOracleExternalComparisonCheck.sol:135-157 | Which error a call rejected before the price comparison reverts with, in order |
| ComparisonOracle.MovesRejectWith | contracts/rwaOracles/RWAOracleExternalComparisonCheck.sol:159-184 | Which error the price comparison reverts with, in order, and when it passes |
| ComparisonOracle.InitExactly | contracts/rwaOracles/RWAOracleExternalComparisonCheck.sol:73-101 | When a deployment succeeds, with which error it fails, and what it stores |
| ComparisonOracle.AbsUnsignedExactly | contracts/rwaOracles/RWAOracleExternalComparisonCheck.sol:263-265 | The absolute value, which panics only at the smallest integer |
| ComparisonOracle.RunHoldsLastAccepted | contracts/rwaOracles/RWAOracleExternalComparisonCheck.sol:202-204 | After any run the oracle holds the price, time and feed round of its last accepted call |
| ComparisonOracle.ChangeBpsMeaning | contracts/rwaOracles/RWAOracleExternalComparisonCheck.sol:250-256 | The checked change reverts exactly when the scaled difference leaves int256, and otherwise is the truncated one |
| ComparisonOracle.AcceptedStepBound | contracts/rwaOracles/RWAOracleExternalComparisonCheck.sol:159-191 | An accepted update moves the price by less than 2.01% and, unless the feed's move is set aside, keeps the relative moves within 0.76%, 0.75% for equal signs |
| ComparisonOracle.IgnoreThresholdIsExact | contracts/rwaOracles/RWAOracleExternalComparisonCheck.sol:162-183 | Both constraints have a common integer solution exactly when the feed moved at most 274 |
| ComparisonOracle.AdmitsEveryMoveIff | contracts/rwaOracles/RWAOracleExternalComparisonCheck.sol:159-191 | Every feed move can be answered by some price exactly when the current price is fine enough for a 200 bps move to exist, and is not 50 |
| ComparisonOracle.LargeIsFine | contracts/rwaOracles/RWAOracleExternalComparisonCheck.sol:48-51 | Every price above 9800 units is fine enough |
| ComparisonOracle.AlwaysAdmitsAPrice | contracts/rwaOracles/RWAOracleExternalComparisonCheck.sol:135-205 | From such a price a setter with a fresh round after the window always has a price that setPrice accepts |
| ComparisonOracle.CoarsePriceLocks | contracts/rwaOracles/RWAOracleExternalComparisonCheck.sol:159-184 | From a deployment at price 1, a 1% move of the feed in an otherwise acceptable round rejects every price |
| ComparisonOracle.UpdatableIff | contracts/rwaOracles/RWAOracleExternalComparisonCheck.sol:135-205 | Some call can be accepted exactly from a positive stored price and a positive stored answer |
| ComparisonOracle.LockedIff | contracts/rwaOracles/RWAOracleExternalComparisonCheck.sol:159-169 | No run ever changes the oracle again exactly when its stored price or answer is not positive |
| ComparisonOracle.DeployedLockedIff | contracts/rwaOracles/RWAOracleExternalComparisonCheck.sol:73-101 | A deployment is locked from the start exactly when its initial price is not positive or the feed answers zero; the constructor accepts any price and a zero answer |
| ComparisonOracle.OneUpdateFromLocked | contracts/rwaOracles/RWAOracleExternalComparisonCheck.sol:171-204 | From every updatable state some accepted update stores an answer of zero and locks the oracle |
| ComparisonOracle.ReachableStored | contracts/rwaOracles/RWAOracleExternalComparisonCheck.sol:202-240 | Runs keep the stored round valid: non-negative answer, complete, and recent at the stored timestamp |
| ComparisonOracle.DeployedStored | contracts/rwaOracles/RWAOracleExternalComparisonCheck.sol:89-97 | Deployments store such a round |
| ComparisonOracle.DocumentedBoundsFail | contracts/rwaOracles/RWAOracleExternalComparisonCheck.sol:118-129 | Two accepted updates of a deployed oracle, one of 200.99 bps and one 75.98 bps away from the feed's move |
| ComparisonOracle.LimitReachedIff | contracts/rwaOracles/RWAOracleExternalComparisonCheck.sol:159-164 | An accepted change of 200 bps or more exists at a price exactly when ceil(price/50)*10000 < 201*price |
| ComparisonOracle.BandKeptIff | contracts/rwaOracles/RWAOracleExternalComparisonCheck.sol:171-183 | Exactly which accepted updates stay within 74 bps of the feed's move, by their truncated changes and what truncation dropped |
| ComparisonOracle.BandBreakableIff | contracts/rwaOracles/RWAOracleExternalComparisonCheck.sol:171-183 | From which stored prices and answers some accepted update leaves the band: all above 10000 units; at 10000 exactly when the other side's steps include a fraction of a basis point |
| ComparisonOracle.ComparisonEnvelope | contracts/rwaOracles/RWAOracleExternalComparisonCheck.sol:135-205 | In any run, whatever the feed answers, the price stays positive and within compounded steps of 2.01% per 23 hours |
| ComparisonOracleContract.RWAOracleExternalComparisonCheck.constructor | contracts/rwaOracles/RWAOracleExternalComparisonCheck.sol:73-101 | Deploys with the checked feed round |
| ComparisonOracleContract.RWAOracleExternalComparisonCheck.SetPrice | contracts/rwaOracles/RWAOracleExternalComparisonCheck.sol:135-205 | The in-place update equals its specification, and a revert changes nothing |
| Pricer.ReachableInv | contracts/Pricer.sol:62-104 | In every reachable state ids are 1..currentPriceId, prices are nonzero exactly there, and the pointer is the first id with the largest timestamp |
| Pricer.AddPriceExactly | contracts/Pricer.sol:62-81 | addPrice is accepted exactly for the updater, with a price, while ids last; it stores just the given price and timestamp under the next id, and moves the pointer exactly if newer |
| Pricer.RunKeepsHistory | contracts/Pricer.sol:62-104 | After any calls the pricer holds exactly the list of prices the accepted calls gave it, by id, with corrections applied |
| Pricer.LatestPriceOfRun | contracts/Pricer.sol:43-45 | After any calls getLatestPrice is the price last given for the first latest entry of that list, or 0 when no timestamp is positive |
| Pricer.StepKeepsInv | contracts/Pricer.sol:62-104 | Each call keeps that invariant |
| Pricer.LatestPointerMeetsSpec | contracts/Pricer.sol:75-78 | The incrementally kept pointer is the one and only first-latest id of the stored timestamps |
| Pricer.FirstLatestUnique | contracts/Pricer.sol:75-78 | That id is unique |
| Pricer.UpdatePriceExactly | contracts/Pricer.sol:89-104 | A correction is accepted exactly for the updater, with a price, on an id that has one; it changes that price and no timestamp, id, pointer or other entry |
| PricerContract.Pricer.GetLatestPrice | contracts/Pricer.sol:43-45 | Returns the price of the first-latest entry, zero exactly when no timestamp is positive |
| PricerContract.Pricer.AddPrice | contracts/Pricer.sol:62-81 | The in-place append equals its specification and keeps the invariant |
| PricerContract.Pricer.UpdatePrice | contracts/Pricer.sol:89-104 | The in-place correction equals its specification and keeps the invariant |
| PricerWithOracle.CommentHoldsIff | contracts/PricerWithOracle.sol:89-91 | The pricer is never ahead of the oracle in a run exactly when the run accepts no addPrice stamped ahead of its block and of the pointer |
| PricerWithOracle.OrderKeptIff | contracts/PricerWithOracle.sol:44-94 | One accepted call keeps the order exactly when it is not premature |
| PricerWithOracle.StampedInTheirBlock | contracts/PricerWithOracle.sol:44-94 | If addPrice is always stamped no later than its block, every reachable state has the pointer at the largest timestamp, at most the oracle's |
| PricerWithOracle.CommentCanFail | contracts/PricerWithOracle.sol:89-91 | A run that breaks the order and then moves the pointer back in time |
| PricerWithOracle.SentToOracleIff | contracts/PricerWithOracle.sol:57-61 | An accepted addPrice reaches the oracle, with its price and the block time, exactly when it is newer than the latest price; otherwise the oracle is unchanged |
| PricerWithOracle.AddPriceExactly | contracts/PricerWithOracle.sol:44-108 | addPrice succeeds exactly for the updater, with a price, while ids last, and, if newer, with pricer and oracle in sync and a price that meets the oracle's conditions, spelled out; it stores just what it was given and moves pointer and oracle exactly if newer |
| PricerWithOracle.AddPriceRejectsWith | contracts/PricerWithOracle.sol:48-106 | Which error a rejected addPrice reverts with, the mismatch included |
| PricerWithOracle.AddLatestOraclePriceExactly | contracts/PricerWithOracle.sol:72-94 | The catch-up succeeds exactly when price or time differ, for the updater, while ids last, and stores and points at the oracle's data |
| PricerWithOracle.SetOracleExactly | contracts/PricerWithOracle.sol:107 | When either oracle takes a price, and what it holds then |
| PricerWithOracle.PriceDataExactly | contracts/rwaOracles/RWAOracleExternalComparisonCheck.sol:108-116 | What getPriceData reports, negative prices included |
| Outcomes.SameWord | contracts/PricerWithOracle.sol:107 | The signed and unsigned readings of a word, and that converting back restores the value |
| PricerWithOracle.InitExactly | contracts/PricerWithOracle.sol:20-34 | Deployment copies the oracle's price and time under id 1 and nothing else |
| PricerWithOracle.OldPriceIsNotSent | contracts/PricerWithOracle.sol:44-64 | From any deployment a price stamped no later than the oracle's is added and not sent |
| PricerWithOracle.ReachableLinked | contracts/PricerWithOracle.sol:20-94 | In every reachable state ids are in order and the pointer is one of them, whatever the timestamps |
| PricerWithOracle.CatchUpRestoresSync | contracts/PricerWithOracle.sol:72-108 | After a catch-up the two agree, a second catch-up reverts, and a newer price is refused only by the oracle's own rules |
| PricerWithOracleContract.PricerWithOracle.constructor | contracts/PricerWithOracle.sol:20-34 | Starts in sync with the oracle under id 1 |
| PricerWithOracleContract.PricerWithOracle.AddPrice | contracts/PricerWithOracle.sol:44-64 | The in-place append with oracle update and rollback equals its specification |
| PricerWithOracleContract.PricerWithOracle.AddLatestOraclePrice | contracts/PricerWithOracle.sol:72-94 | The in-place catch-up equals its specification |
| Allowlist.ReachableInv | contracts/usbs/allowlist/AllowlistUpgradeable.sol:72-236 | In every state reachable from deployment only existing terms are referred to, and terms are only ever appended |
| Allowlist.AdmittedIff | contracts/usbs/allowlist/AllowlistUpgradeable.sol:109-236 | An accepted call puts an account on the list exactly when it is that account itself, its signature, the setter, or a validation of a term it is verified for |
| Allowlist.DroppedIff | contracts/usbs/allowlist/AllowlistUpgradeable.sol:109-236 | An accepted call takes an account off the list exactly when the setter withdraws its last valid verification or the admin leaves no term it is verified for |
| Allowlist.StepExactly | contracts/usbs/allowlist/AllowlistUpgradeable.sol:72-236 | When each call is accepted, and exactly who is verified for what, which terms exist and which indexes are set afterwards |
| Allowlist.RejectsWith | contracts/usbs/allowlist/AllowlistUpgradeable.sol:72-236 | Which error each rejected call reverts with |
| Allowlist.OnlyTheSetOfIndexesMatters | contracts/usbs/allowlist/AllowlistUpgradeable.sol:131-144 | Order and repetition of valid indexes change nobody's status |
| AllowlistContract.AllowlistUpgradeable.IsAllowed | contracts/usbs/allowlist/AllowlistUpgradeable.sol:131-144 | The loop decides membership: a contract, or verified for some valid index |
| AllowlistContract.AllowlistUpgradeable.SetValidTermIndexes | contracts/usbs/allowlist/AllowlistUpgradeable.sol:109-120 | The loop accepts exactly lists of existing terms and then replaces the list |
| AllowlistContract.AllowlistUpgradeable.AddTerm | contracts/usbs/allowlist/AllowlistUpgradeable.sol:72-78 | Appends a term and makes it current |
| AllowlistContract.AllowlistUpgradeable.SetCurrentTermIndex | contracts/usbs/allowlist/AllowlistUpgradeable.sol:90-99 | Equals its specification, errors included: only an admin and only an existing term |
| AllowlistContract.AllowlistUpgradeable.AddSelfToAllowlist | contracts/usbs/allowlist/AllowlistUpgradeable.sol:153-159 | Equals its specification |
| AllowlistContract.AllowlistUpgradeable.SetAccountStatus | contracts/usbs/allowlist/AllowlistUpgradeable.sol:172-179 | Equals its specification |
| AllowlistContract.AllowlistUpgradeable.AddAccountToAllowlist | contracts/usbs/allowlist/AllowlistUpgradeable.sol:192-217 | Equals its specification, with signature recovery as a parameter |
| AllowlistContract.AllowlistUpgradeable.WriteStatus | contracts/usbs/allowlist/AllowlistUpgradeable.sol:226-236 | Writes a status for an existing term only |
| Token.FrozenBalance | contracts/usbs/USBS.sol:73-104 | Whatever is called, an account that never passes the three lists keeps its balance |
| Token.BalanceChangeNeedsClearance | contracts/usbs/USBS.sol:73-104 | A balance changes only while unpaused and only if its holder and the caller both pass all three lists |
| Token.HookIff | contracts/usbs/USBS.sol:73-104 | The hook passes exactly when the token is not paused and both real ends, and a caller that is neither, are off both lists and a contract or verified for a valid term |
| Token.HookRejectsWith | contracts/usbs/USBS.sol:73-104 | Which check the hook fails with: pause, caller, source, destination |
| Token.RejectsWith | contracts/external/openzeppelin/contracts-upgradeable/token/ERC20/ERC20Upgradeable.sol:275-391 | Which error each rejected ledger operation reverts with |
| Token.MoveExactly | contracts/external/openzeppelin/contracts-upgradeable/token/ERC20/ERC20Upgradeable.sol:275-295 | When a transfer succeeds, and every balance, the supply and the allowances afterwards |
| Token.MintExactly | contracts/external/openzeppelin/contracts-upgradeable/token/ERC20/ERC20Upgradeable.sol:306-316 | When a mint succeeds, and every balance and the supply afterwards |
| Token.BurnExactly | contracts/external/openzeppelin/contracts-upgradeable/token/ERC20/ERC20Upgradeable.sol:329-344 | When a burn succeeds, and every balance and the supply afterwards |
| Token.SpendExactly | contracts/external/openzeppelin/contracts-upgradeable/token/ERC20/ERC20Upgradeable.sol:379-391 | When an allowance covers an amount, and every allowance afterwards; the largest is not used up |
| Token.TransferFromExactly | contracts/external/openzeppelin/contracts-upgradeable/token/ERC20/ERC20Upgradeable.sol:196-205 | When a third-party transfer succeeds, and every balance and allowance afterwards |
| Token.BurnFromExactly | contracts/external/openzeppelin/contracts-upgradeable/token/ERC20/ERC20BurnableUpgradeable.sol:44-47 | When a third-party burn succeeds, and every balance and allowance afterwards |
| Token.ApproveExactly | contracts/external/openzeppelin/contracts-upgradeable/token/ERC20/ERC20Upgradeable.sol:359-369 | When an approval succeeds, and that it sets that allowance alone |
| Token.StepExactly | contracts/usbs/USBS.sol:115-117 | Which entry point of the token needs which role, and what increasing and decreasing an allowance do |
| Token.StepConserves | contracts/external/openzeppelin/contracts-upgradeable/token/ERC20/ERC20Upgradeable.sol:275-391 | No call creates or loses a token except by minting and burning |
| Token.RunConserves | contracts/external/openzeppelin/contracts-upgradeable/token/ERC20/ERC20Upgradeable.sol:275-391 | Over any run the supply is the sum of the balances |
| UsbsContract.USBS.BeforeTokenTransfer | contracts/usbs/USBS.sol:73-104 | The hook, asking the allowlist contract, equals its specification |
| UsbsContract.USBS.Transfer | contracts/external/openzeppelin/contracts-upgradeable/token/ERC20/ERC20Upgradeable.sol:275-295 | A transfer through the hook equals its specification, self-transfers included |
| UsbsContract.USBS.TransferFrom | contracts/external/openzeppelin/contracts-upgradeable/token/ERC20/ERC20Upgradeable.sol:196-205 | Allowance first, then the transfer; a failing transfer restores the allowance |
| UsbsContract.USBS.Mint | contracts/external/openzeppelin/contracts-upgradeable/token/ERC20/ERC20Upgradeable.sol:306-316 | A mint by the minter equals its specification |
| UsbsContract.USBS.Burn | contracts/external/openzeppelin/contracts-upgradeable/token/ERC20/ERC20Upgradeable.sol:329-344 | A burn through the hook equals its specification |
| UsbsContract.USBS.AdminBurn | contracts/usbs/USBS.sol:115-117 | The admin burn needs the burner role and passes the same hook |
| UsbsContract.USBS.BurnFrom | contracts/external/openzeppelin/contracts-upgradeable/token/ERC20/ERC20BurnableUpgradeable.sol:44-47 | Allowance first, then the burn; a failing burn restores the allowance |

## Left out

- HubContract.USBSManager.Configure: `setPricer` is not among its settings, because each call sees an arbitrary price source, and the old and new values in the setters' events are not recorded.
- ComparisonOracle.BandBreakableIff: speaks of stored pairs with at least one value of 10000 units or more, because below that on both sides the answer depends on how the two grids of steps interleave; `BandKeptIff` decides each update at any size.
- Deployment, governance and verification scripts, hardhat and foundry configuration: no contract logic.
- Proxies, factories, initializers and `multiexcall`: plumbing around the contracts modelled here.
- Role administration: a role is a fact about the caller that each call brings along.
- Reentrancy guards and gas: a call is one atomic step, and each external call inside it is a state change of the callee.
- Signature hashing and recovery: an arbitrary function from a term to its signer or a revert.
- Chainlink and Chainalysis: the feed's answer and the sanctioned set are arbitrary inputs of each call.
- `setPricer`, `setBlocklist`, `setSanctionsList`, `setAllowlist` and the blocklist's own loops: their effect is that each call sees arbitrary prices and lists; a price source that reverts is not modelled.
- Events other than the hub's accounting events: settings log one `OtherEvent`, the oracles, pricers, allowlist and token log nothing.
- Token contracts inside the hub: represented by their ledger states, so calls to them change a field of the hub; the collateral is a plain EIP-20 ledger with no hook and no fee on transfer, on which anybody may mint and burn.
- The token's own pause switch, approve, increaseAllowance, decreaseAllowance and transfer wrappers: present as steps of `Token.Run` and as an arbitrary pause flag, without class methods.
- The oracles' `description` and `decimals`: never read by the code.
- Interfaces for instant mints: nothing implements them.
