# Market launch, verified

The repository deploys Aave V3 markets (BIL, GIGAHDX) on Hydration. Its contracts are stock Aave and GHO;
its own logic is the TypeScript that plans, orders, resumes and undoes the on-chain actions. This project
models that logic in Dafny and proves what it is meant to guarantee, for every start state and every run.

## What is modelled

* **The launch batch** (`Chain`, `Launch`, `LaunchBuilder`, `TransactionBatch`, proofs in `HoistProofs`,
  `EvmHalf`, `EvmRights`, `LaunchProofs`, `Replay`, `LaunchSettings`, `LaunchOrder`, `LaunchStale`,
  `Recovery`, `GigaProofs`, `ProviderRegistry`). A script reads a chain state, builds a list of calls with
  addresses it predicts from a nonce, and `utility.batchAll` executes the list. EVM calls travel in
  `dispatchAsAaveManager`, which swallows a revert; a failing native call aborts the whole batch.
  `LaunchBuilder` is the scripts' own imperative form (a shared buffer that is filled and flushed phase by
  phase, a list that grows, the final splice and unshift), proved equal to the call lists of `Launch`. The
  theorems are of the form "build at any state, execute there": when it commits, when it wires HOLLAR
  correctly, what the order of the list decides, what recovery restores, and of the form "build at one
  state, execute at a later one": when a prediction has gone stale.
* **Resumable reserve initialisation** (`ReserveInit`, `Chunks`, `ResumeProofs`, `ReserveRecords`,
  `ReserveConfigure`). The parallel arrays, the strategy cache and the chunked transactions of
  `initReservesByHelper`, and the plan and transactions of `configureReservesByHelper`, cut after any
  transaction and rerun.
* **The admin handover** (`Handover`, `HandoverProofs`, `HandoverRuns`, `HandoverOverlap`). The transfer,
  grant and revoke scripts as methods over a role table, and a machine in which any number of runs of them
  are started, interleaved and stopped anywhere. Reading a guard and sending the transaction behind it are
  two actions of that machine, with anything in between; the transaction is judged by the contract's access
  rule alone, at its arrival. The GIGAHDX copies have the same logic; the accounts are parameters.
* **The leverage loop** (`LeverageLoop`, `LeverageProofs`, `LeverageStops`). Integer arithmetic with the
  pool's own roundings.
* **Codecs and rewriting** (`Decimals`, `DecimalInputs`, `AddressCodec`, `AddressProofs`, `CallTree`,
  `CallTreeProofs`, `CallTreeContents`, `SameMembers`).

## Assumptions, and where the code departs from what is said about it

* Addresses form a free term algebra: `Create(from, nonce)` is injective and meets no other address
  (section 7 of the Ethereum Yellow Paper). `Valid(pool)` says that the configurator's future proxies do
  not exist yet and that reserves have proxies; every call keeps it.
* What contracts do is taken from the Aave and GHO Solidity that the repository embeds in
  `deployments/bil/solcInputs` and in the artifacts of `deployments/bil`: `initReserves` needs a pool admin
  and creates three proxies; when it reverts the configurator's nonce does not move; `setVariableDebtToken`
  and `setAToken` work once; `addFacilitator` refuses an existing facilitator; `percentMul` and `percentDiv`
  round half up.
* An asset precompile answers exactly when its asset is registered (scripts/submit-bil-proposal.ts:426-434).
* The registry is keyed by id. Whether it also insists on unique names is the flag `uniqueNames`: the BIL
  script registers both assets under the name "BIL" (lines 323 and 364), although markets/bil/index.ts:21-23
  says that the names differ to satisfy uniqueness. On a registry that insists, a batch that has to register
  both always aborts (`BilAborts`); GIGAHDX's two names never clash with each other (`GigaAbortsIff`).
* Only the native half is idempotent. With HOLLAR listed already, the script still emits the HOLLAR calls
  for addresses that will never hold code, and adds a stray facilitator (`RelaunchAddsStrayFacilitator`).
* `revoke-deployer.ts:12-13` says it can never remove the last admin. That is true exactly when the signer
  is not the governance account itself (`NeverBrickedIff`). Its guard looks at two roles only, so a transfer
  cut after its second, third or fourth grant is stranded by an early revocation
  (`EarlyRevokeStrandsTransfer`).
* The scripts call themselves safe to rerun. Reruns one after the other are (`AloneNeverRefused`); of two
  runs that overlap, one may read a guard, and have its transaction refused because the other one's arrived
  first (`OverlapRefuses`). `RefusedIff` says exactly when; in the documented order the refused step never
  has anything left to do (`RefusedInOrderIff`).
* The proposal decoder drops a call whose arguments leave nothing to show, pallet and method included
  (`ArglessCallVanishes`, `SurvivesIff`).
* `containsSameMembers` decides multiset equality over an alphabet exactly when the comma is not in it
  (`DecidesIffCommaFree`).
* `configureReservesByHelper` sends a reserve with a liquidation threshold of zero again on every run
  (`QuietIff`).
* `loop-bil-position.ts` keeps the position within its LTV limit exactly from a HOLLAR price of 14976 base
  units (0.00014976 dollars) on; at every lower price some position is overdrawn by a rounding.
* A negative amount that `fmt18` prints does not read back, unless its shown decimals are zero: the sign is
  applied to the whole part alone (`RoundTripIff`).
* `tokenAddress` is not injective: ids that agree modulo 2^32 share an address (`TokenAddressCollides`).
* `chunk` with size 0 loses its input (`ChunkFlattensIff`).

## Model

| member | source | states |
|---|---|---|
| `Chain.RunKeepsValid` | scripts/submit-bil-proposal.ts:238-265 | No batch whatsoever breaks the invariant that the configurator's next proxies are still unused, so nonce predictions stay meaningful |
| `EvmRights.StrangerChangesNothing` | helpers/hydration-proposal.js:254-280 | Whatever list of calls a sender without roles, ownership or facilitator rights dispatches, all of it is swallowed |
| `EvmRights.UnlistedUnset` | scripts/bil/recovery-gho-cross-refs.ts:1-4 | Over any run, an asset that is not listed at the end has none of its settings changed |
| `EvmRights.TermsStaySound` | markets/bil/reservesConfigs.ts:11-16 | No run ever sets terms under which a loan within its LTV is liquidatable at once, or a liquidation does not pay |
| `EvmRights.IdsStayDistinct` | helpers/init-helpers.ts:505-514 | No run ever gives two providers one id |
| `Launch.MarketConstants` | markets/bil/reservesConfigs.ts:14-26 | The two markets' ids, buckets, terms, factors and fees |
| `LaunchBuilder.InitReserveTask` | tasks/misc/init-reserve.ts:35-188 | Batch mode appends exactly the oracle, init, configure and fee calls that the chain state calls for, after what is buffered |
| `LaunchBuilder.ReviewReserveFactorsTask` | tasks/misc/review-reserve-factors.ts:48-131 | The loop over the listed reserves ends the script exactly when one is unknown, and otherwise adds the one fix that is due, whatever the order of the list |
| `LaunchBuilder.RegistrationFirst` | scripts/submit-bil-proposal.ts:435-446 | Searching, splicing and unshifting give a permutation that keeps the order of all other calls and starts with a placement of the asset exactly when there is one |
| `LaunchBuilder.BuildBilProposal` | scripts/submit-bil-proposal.ts:148-453 | The phase-by-phase script with its shared buffer returns the proposal the theorems are about, leftover buffered calls first, and leaves the buffer empty |
| `LaunchBuilder.BuildGigaProposal` | scripts/gigahdx/submit-gigahdx-proposal.ts:78-291 | The same for the GIGAHDX script |
| `LaunchBuilder.BuildRecoveryProposal` | scripts/bil/recovery-gho-cross-refs.ts:91-115 | The same for the six recovery calls |
| `TransactionBatch.Batch.AddTransaction` | helpers/transaction-batch.ts:5-12 | Appends to the current buffer in place, seen through every alias of it |
| `TransactionBatch.Batch.ClearBatch` | helpers/transaction-batch.ts:18-20 | Installs a new buffer; the one handed out before keeps its contents |
| `TransactionBatch.Flush` | scripts/submit-bil-proposal.ts:190-192 | Read, wrap, clear: every buffered call once, in order, in the wrapper; the old buffer untouched |
| `TransactionBatch.FlushConserves` | helpers/transaction-batch.ts:3-20 | Over any run of adds and flushes, the flushed groups and what is left are what was buffered and added, in order, each once |
| `TransactionBatch.WrappingConserves` | scripts/submit-bil-proposal.ts:299-301 | Wrapping group by group is wrapping the whole |
| `HoistProofs.HoistIsStablePermutation` | scripts/submit-bil-proposal.ts:435-446 | The hoist is a permutation, keeps the order of all other calls, and puts the asset first exactly when it occurs |
| `HoistProofs.PlacementCommutes` | scripts/submit-bil-proposal.ts:426-434 | Two calls, one of them placing a registered asset, give the same result (state or abort) in either order |
| `HoistProofs.HoistPreservesOutcome` | scripts/submit-bil-proposal.ts:426-446 | For any batch: once the asset is registered, the hoisted batch has the same outcome as the original |
| `EvmHalf.EvmHalfExact` | scripts/submit-bil-proposal.ts:150-301 | The whole dispatched half, from any EVM state, reduced to two initialisations, one facilitator and the cross-references |
| `EvmHalf.PredictionsHold` | scripts/submit-bil-proposal.ts:256-297 | With HOLLAR new, both predicted addresses are the real proxies and each points at the other, for both values of the offset |
| `EvmHalf.PredictionsMiss` | scripts/submit-bil-proposal.ts:202-226 | With HOLLAR listed, or no pool-admin right, every cross-reference falls on an address without code and changes nothing |
| `EvmHalf.HollarWiredIff` | scripts/submit-bil-proposal.ts:195-297 | From any state: HOLLAR ends wired if and only if it was wired already or is new and the manager may launch |
| `EvmHalf.ReceiptTokenStable` | scripts/submit-bil-proposal.ts:256-258 | The predicted collateral aToken is the one the pool ends with, whether it was initialised or not |
| `LaunchProofs.BilOutcome` | scripts/submit-bil-proposal.ts:303-453 | From every state: the batch aborts exactly on a name clash, and otherwise ends in one computed state; no other native call can fail |
| `LaunchProofs.BilAborts` | scripts/submit-bil-proposal.ts:319-374 | With unique names required and neither asset registered, the BIL market's own batch aborts, whatever else is on the chain |
| `LaunchProofs.BilNativeHalf` | scripts/submit-bil-proposal.ts:319-424 | Each emitted native call is enabled when it is reached, but for a name clash |
| `LaunchProofs.BilWiredIff` | scripts/submit-bil-proposal.ts:238-297 | Wiring and placement of the receipt asset, each with the exact condition under which the batch achieves it |
| `LaunchProofs.BilLaunches` | scripts/submit-bil-proposal.ts:148-453 | The launch theorem: HOLLAR new, manager entitled; the batch commits, both proxies are the predicted ones and cross-referenced, the facilitator sits on the real aToken, asset 55 points at the collateral aToken, 550 at the vault |
| `LaunchProofs.RebuildEmitsNoNatives` | scripts/submit-bil-proposal.ts:319-424 | A batch built at the resulting state has no native call left |
| `Replay.ReplayIff` | scripts/submit-bil-proposal.ts:397-398 | Any batch that committed commits a second time, not rebuilt, if and only if it registers nothing, adds no fee currency and approves no contract |
| `LaunchProofs.RelaunchAddsStrayFacilitator` | scripts/submit-bil-proposal.ts:202-226 | With HOLLAR listed, the pool is as the collateral's own initialisation leaves it, and the facilitators gain at most one, on an address without code |
| `LaunchProofs.LaunchTwice` | scripts/submit-bil-proposal.ts:397-424 | Launch, rebuild, launch again: it commits, stays launched, keeps pool, registry and every facilitator |
| `LaunchSettings.SettingsExact` | scripts/submit-bil-proposal.ts:150-236 | From any state with a pool-admin manager: every setting (sources, borrowing, collateral terms and cap, factor, fee) after the dispatched half of either script, other assets untouched |
| `LaunchSettings.BilSettings` | tasks/misc/init-reserve.ts:160-181 | The same for the committed BIL batch |
| `LaunchSettings.GigaSettings` | scripts/gigahdx/submit-gigahdx-proposal.ts:108-157 | The same for the GIGAHDX batch |
| `LaunchSettings.BilUsableIff` | scripts/grant-bil-risk-admin.ts:1-6 | After the BIL batch HOLLAR is wired, can be minted and is borrowable against the collateral if and only if the collateral's terms allow loans or the setup helper, with its grant, accepts the manager, and HOLLAR could be minted already or is new and its predicted aToken has or gets a bucket |
| `LaunchSettings.GigaUsableIff` | scripts/gigahdx/submit-gigahdx-proposal.ts:108-216 | The same for the GIGAHDX batch |
| `LaunchSettings.FactorSettled` | tasks/misc/review-reserve-factors.ts:79-110 | With the collateral listed before or configured by the batch, its reserve factor ends as the market's, an unset one counting as zero |
| `LaunchSettings.TermsSettled` | helpers/init-helpers.ts:368-399 | With an accepting setup helper a collateral without a threshold ends with the market's terms, one with a threshold keeps its own, and no other asset's change |
| `LaunchSettings.RebuildSetsNothingUp` | tasks/misc/review-reserve-factors.ts:123-129 | A batch rebuilt after a launch that configured the collateral, or found it in place, initialises, configures, grants and corrects nothing again |
| `LaunchSettings.RolesExact` | helpers/init-helpers.ts:423-440 | From any state a batch changes no role but for one grant, to a setup helper that lacks it, is owned by the manager and has a collateral to configure |
| `LaunchOrder.LaunchesIffRegisteredFirst` | scripts/submit-bil-proposal.ts:426-446 | For every fresh state and every position of the registration: the batch commits, and it launches if and only if the registration precedes the collateral's `initReserves` |
| `LaunchOrder.OutcomeAt` | scripts/submit-bil-proposal.ts:426-434 | The exact end state for every position of the registration |
| `LaunchOrder.Stranded` | scripts/bil/recovery-gho-cross-refs.ts:1-13 | The misordered batch: the init is swallowed, HOLLAR takes the collateral's proxies, both predictions miss, the facilitator is a stray |
| `LaunchOrder.ProposalRegistersFirst` | scripts/submit-bil-proposal.ts:442-446 | The script's own list is the one with the registration at position 0 |
| `LaunchOrder.RegisterLater` | scripts/submit-bil-proposal.ts:319-335 | A registration that succeeds before another native call succeeds after it too, with the same effect |
| `LaunchStale.WiredIffNonceHolds` | scripts/bil/recovery-gho-cross-refs.ts:1-4 | Built at any state, executed at any later one with HOLLAR new: HOLLAR ends wired if and only if the manager may and the nonce, plus 3 when the collateral's initialisation goes through, is the predicted one |
| `LaunchStale.StaleLaunchIff` | scripts/submit-bil-proposal.ts:238-265 | The same for the whole BIL batch, whenever it still commits |
| `Recovery.RecoveryExact` | scripts/bil/recovery-gho-cross-refs.ts:91-110 | On any Gho pair the six calls commit and change those two tokens and one facilitator only |
| `Recovery.RecoveryWiresIff` | scripts/bil/recovery-gho-cross-refs.ts:5-13 | Recovery reaches the launch's wiring if and only if neither write-once reference points elsewhere, whatever stray facilitators exist |
| `Recovery.RecoveryAfterMisorder` | scripts/bil/recovery-gho-cross-refs.ts:1-18 | From every fresh state, misordered batch then recovery: HOLLAR is wired as a launch would have wired it |
| `Recovery.RecoverThenRelaunch` | scripts/bil/recovery-gho-cross-refs.ts:1-18 | Recovery leaves the receipt asset misplaced; a batch rebuilt after it completes the launch |
| `GigaProofs.GigaOutcome` | scripts/gigahdx/submit-gigahdx-proposal.ts:78-291 | The second script aborts exactly on a name clash and otherwise ends in one computed state |
| `GigaProofs.GigaLaunchesIff` | scripts/gigahdx/submit-gigahdx-proposal.ts:80-216 | Its launch theorem, in both directions, with registration emitted first instead of hoisted |
| `GigaProofs.GigaAbortsIff` | scripts/gigahdx/submit-gigahdx-proposal.ts:84-105 | The GIGAHDX market's batch aborts if and only if unique names are required and another asset has a name it still has to register |
| `GigaProofs.GigaRebuildEmitsNoNatives` | scripts/gigahdx/submit-gigahdx-proposal.ts:218-288 | A batch built at the resulting state has no native call left |
| `GigaProofs.GigaLaunchTwice` | scripts/gigahdx/submit-gigahdx-proposal.ts:266-288 | Launch, rebuild, launch again: it commits, stays launched, keeps pool, registry and every facilitator |
| `ProviderRegistry.RegistryContract.AddMarketToRegistry` | helpers/init-helpers.ts:485-543 | Deploy-time registration: invalid address, already there, deferred, sent; with the registry's new state |
| `ProviderRegistry.BatchRegistry` | scripts/submit-bil-proposal.ts:160-188 | What the whole batch does to the registry: one registration when it is accepted, nothing else |
| `ProviderRegistry.RegisteredExactlyOnce` | helpers/init-helpers.ts:516-543 | Deploy step then batch, committed or aborted, any owner and any signers: exactly one of them registers the provider when that is possible, never both, and no other provider is touched |
| `ReserveInit.DraftAll` | helpers/init-helpers.ts:152-189 | The loop's parallel arrays stay aligned and its strategy cache agrees with the direct lookup |
| `ReserveInit.Assemble` | helpers/init-helpers.ts:191-219 | The second loop yields, per eligible symbol in order, a record of that symbol's own settings |
| `ReserveInit.PoolContract.InitReserves` | helpers/init-helpers.ts:252-255 | One transaction of any length goes through if and only if its reserves are new and distinct; then the pool gains exactly them, listed in order, and otherwise it is as before |
| `ReserveInit.ApplyExact` | helpers/init-helpers.ts:252-255 | The same of the transaction as a function |
| `ReserveInit.InitReservesByHelper` | helpers/init-helpers.ts:46-263 | The whole run, cut after any number of transactions: throws before the first one exactly when a market, token or strategy artifact is missing, and otherwise sends the planned chunks in order |
| `ResumeProofs.PlanMembers` | helpers/init-helpers.ts:152-219 | A record is planned if and only if it is some eligible entry's own record |
| `ResumeProofs.PlanCount` | helpers/init-helpers.ts:152-163 | One record for each eligible entry |
| `ResumeProofs.RerunPlansRemaining` | helpers/init-helpers.ts:159-163 | Whatever reserves appeared meanwhile, a rerun plans the same records in the same order, without those |
| `ResumeProofs.ResumesIffDistinct` | helpers/init-helpers.ts:152-162 | Every cut leaves exactly the missing suffix to plan, if and only if the token addresses are distinct |
| `ResumeProofs.RunExact` | helpers/init-helpers.ts:222-262 | A run cut after any budget: state, status and what the next run will plan |
| `ResumeProofs.ResumeReachesSameState` | helpers/init-helpers.ts:152-162 | Cut anywhere and rerun: only the missing suffix is sent, the pool and its reserve order end as after one run, a third run sends nothing |
| `ReserveRecords.FinishedRunInstalls` | helpers/init-helpers.ts:191-219 | After a finished run over distinct tokens every entry that was to be initialised has a reserve with its own kind of aToken, both debt implementations, decimals, strategy, treasury, incentives and the six names; all other reserves are as before and nothing else is there |
| `ReserveConfigure.SetupHelper.ConfigureReservesByHelper` | helpers/init-helpers.ts:344-483 | Plans the reserves with a token and terms that are not enabled as collateral, and sends them one by one until done, cut or refused |
| `ReserveConfigure.RerunPlans` | helpers/init-helpers.ts:344-390 | After any cut, the next run plans the sent reserves with a liquidation threshold of zero again, and then exactly the missing suffix |
| `ReserveConfigure.ConfigureResumes` | helpers/init-helpers.ts:455-480 | Cut anywhere and rerun: the state of one whole run |
| `ReserveConfigure.QuietIff` | helpers/init-helpers.ts:368-376 | After a whole run there is nothing left to send if and only if no planned threshold is zero |
| `ReserveConfigure.FinishedRunSets` | helpers/init-helpers.ts:378-399 | After a finished run over distinct tokens every item that was to be configured has exactly its own terms and factor, and every other asset's terms are as before |
| `ReserveConfigure.SendKeepsSound` | helpers/init-helpers.ts:455-480 | No run sets terms on an unlisted reserve or unsound ones, and none takes out of use a collateral that has suppliers |
| `Chunks.ChunkFlattens` | helpers/utilities/utils.ts:8-16 | For a positive size the chunks flatten to the input, all full but the last |
| `Chunks.ChunkFlattensIff` | helpers/utilities/utils.ts:8-16 | For every size: they do if and only if the size is positive or the input is empty |
| `Handover.MarketAdmin.TransferAdminToGovernance` | scripts/bil/transfer-admin-to-governance.ts:28-147 | The script of guarded steps over mutable fields is the run of its ten steps, stopped at the first failure |
| `Handover.MarketAdmin.GrantHelperRiskAdmin` | scripts/grant-bil-risk-admin.ts:9-23 | Likewise for the middle script |
| `Handover.MarketAdmin.RevokeDeployerRoles` | scripts/bil/revoke-deployer.ts:20-90 | Likewise for the guard, the removals, the renouncement and the final check |
| `HandoverProofs.ReadThenSend` | scripts/bil/transfer-admin-to-governance.ts:46-61 | A read and a send with nothing in between are the one guarded step of an uninterrupted run |
| `HandoverProofs.AlwaysGuarded` | scripts/bil/revoke-deployer.ts:32-74 | Any interleaving of the reads and transactions of any number of truncated runs, in any order: there is a default admin, and when it is not the deployer then governance holds both guarded roles and the deployer none |
| `HandoverProofs.SettledStep` | scripts/bil/transfer-admin-to-governance.ts:46-108 | What one run's successful step achieved, no read and no transaction of any run undoes, however old the guard behind it |
| `HandoverProofs.NeverBrickedIff` | scripts/bil/revoke-deployer.ts:12-13 | The safety claim holds for all runs if and only if the signer is not the governance account |
| `HandoverProofs.SelfRevokeBricks` | scripts/bil/revoke-deployer.ts:64-74 | Otherwise one revocation leaves the market without any default admin |
| `HandoverRuns.HandoverInOrder` | scripts/bil/revoke-deployer.ts:5-13 | Runs cut, restarted and overlapping in any way, with revocations started only after a completed transfer and grant: no guard throws, a transaction is refused only where nothing is left to do, and completion means one exact table |
| `HandoverOverlap.RefusedIff` | scripts/bil/transfer-admin-to-governance.ts:48-60 | In any world and schedule: a transaction is refused if and only if it was not authorised when its guard was read, or another run's transaction that ends the authority arrived in between; then it changes nothing |
| `HandoverOverlap.RefusedInOrderIff` | scripts/bil/revoke-deployer.ts:46-59 | In the documented order, refused exactly by overlap, and the step's fact holds either way |
| `HandoverOverlap.AuthorityExact` | scripts/bil/transfer-admin-to-governance.ts:92-108 | Over any schedule the deployer's authority for a step is lost in exactly one way and never comes back |
| `HandoverOverlap.OverlapRefuses` | scripts/bil/transfer-admin-to-governance.ts:101-108 | Two runs past the same owner guard: the second transaction is refused |
| `HandoverOverlap.AloneNeverRefused` | scripts/bil/revoke-deployer.ts:11-13 | In the documented order, runs that are cut and restarted but do not overlap are never refused anything |
| `HandoverRuns.HandoverFromDeployerOnly` | scripts/bil/transfer-admin-to-governance.ts:5-14 | From a deployer-only market: DEFAULT_ADMIN and POOL_ADMIN {gov}, RISK_ADMIN {gov, helper}, EMERGENCY_ADMIN {gov, dedicated} |
| `HandoverRuns.TransferRun` | scripts/bil/transfer-admin-to-governance.ts:46-85 | With the owners in order, a transfer is refused if and only if a grant is missing and the deployer is no default admin |
| `HandoverRuns.TransferNeedsEmergency` | scripts/bil/transfer-admin-to-governance.ts:32-35 | A transfer throws by itself if and only if no emergency admin is configured, and then before it sends anything |
| `HandoverRuns.RevokeRun` | scripts/bil/revoke-deployer.ts:32-89 | A revocation by a default admin goes through if and only if governance holds the two guarded roles; it takes the deployer's roles and nothing else, or changes nothing |
| `HandoverRuns.EarlyRevokeStrandsTransfer` | scripts/bil/revoke-deployer.ts:33-41 | Transfer cut after k steps, revocation, transfer again: the last is refused exactly for k = 3, 4, 5 |
| `HandoverRuns.RerunsHarmlessIffDistinct` | scripts/bil/revoke-deployer.ts:11-13 | After a full handover both earlier scripts rerun without failing if and only if the deployer is none of the accounts that received roles |
| `LeverageLoop.SizeNextBorrow` | scripts/loop-bil-position.ts:133-145 | It borrows if and only if 99.9% of the headroom is worth 0.1 HOLLAR or more, and then exactly that; why it stops otherwise |
| `LeverageStops.BorrowsIff` | scripts/loop-bil-position.ts:139-145 | The same of the decision that whole runs are made of |
| `LeverageStops.MarginIsRead` | scripts/loop-bil-position.ts:133-138 | For every position, exact margin beyond the rounding is read as headroom |
| `LeverageStops.RunUsesHeadroom` | scripts/loop-bil-position.ts:132-145 | A run without a round limit, at a positive price, stops for want of headroom only, and leaves less than 0.1 HOLLAR and two smallest units need |
| `LeverageStops.LedgerBalances` | scripts/loop-bil-position.ts:146-149 | Every run: the debt grows by exactly what was borrowed, each round borrows at least 0.1 HOLLAR, no collateral is lost, and with a fair zap the equity stays |
| `LeverageStops.SeedingAdds` | scripts/loop-bil-position.ts:92-114 | Both wallet balances reach the position, the HOLLAR through the zap, and no debt does |
| `LeverageStops.AcceptedNearLimit` | scripts/loop-bil-position.ts:147 | Whatever borrow the pool accepts is positive and backed by collateral, and overdraws the exact limit by no more than the pool's own rounding |
| `Arithmetic.PercentMulNearest` | scripts/loop-bil-position.ts:133-134 | The pool's percentage of a value is the nearest integer, halves up |
| `Arithmetic.PercentDivNearest` | scripts/loop-bil-position.ts:147 | So is the collateral that a debt needs |
| `LeverageProofs.TargetBounds` | scripts/loop-bil-position.ts:139-141 | The next borrow is worth at most 99.9% of the headroom, and within two of HOLLAR's smallest units of that |
| `LeverageLoop.LoopPosition` | scripts/loop-bil-position.ts:92-151 | Seeding and the loop over an account, proved against the recursive run |
| `LeverageProofs.AlwaysSafeIff` | scripts/loop-bil-position.ts:22-23 | A sized borrow keeps debt * 10000 <= collateral * LTV in exact value, for all positions and terms, if and only if the price is at least 14976 |
| `LeverageProofs.NeverRejected` | scripts/loop-bil-position.ts:139-147 | The pool's own rounded check accepts every borrow the script sizes, at every price |
| `LeverageProofs.RunsStaySafe` | scripts/loop-bil-position.ts:132-151 | At such prices a run of any number of rounds ends every round within its limit, whatever the zap returns (as long as it creates no value) |
| `LeverageProofs.SafeMeansHealthy` | scripts/loop-bil-position.ts:155-158 | Within the limit the health factor is at least threshold / LTV and equity is positive |
| `LeverageProofs.NotLiquidatable` | scripts/loop-bil-position.ts:116-127 | Within the limit the pool's own rounded health factor is at least 1; for an LTV of at most 50%, as in both markets, without exception |
| `LeverageProofs.HealthFactorIff` | scripts/loop-bil-position.ts:116-127 | The rounded health factor is at least 1 if and only if the threshold's share of the collateral covers the debt, for debts below 2 * 10^10 in value |
| `LeverageProofs.FuelDecreases` | scripts/loop-bil-position.ts:135-148 | The measure that every full round strictly decreases |
| `LeverageProofs.BoundedIsUnbounded` | scripts/loop-bil-position.ts:24 | Below 100% LTV the loop stops without its round limit; the limit matters exactly when it is reached |
| `LeverageProofs.TotalAgainstMargin` | scripts/loop-bil-position.ts:139-149 | Total borrowing and rounds against the margin given up |
| `LeverageProofs.BorrowingBounded` | scripts/loop-bil-position.ts:139-149 | Total borrowed value * (1 - LTV) is at most the first headroom plus a stated rounding slack |
| `Decimals.ToBaseUnitsExact` | scripts/bil/fund-account.ts:39-44 | Any digits on both sides of the dot: the result is the exact value times 10^decimals, cut |
| `Decimals.ToBaseUnitsWhole` | scripts/bil/fund-account.ts:39-44 | Without a dot it is the number times 10^decimals |
| `DecimalInputs.ParsesIff` | scripts/bil/fund-account.ts:43 | A part is accepted if and only if it is digits with at most one sign in front |
| `DecimalInputs.SignedInput` | scripts/bil/fund-account.ts:39-44 | A plus changes nothing; a minus turns the whole part alone, and the fraction is still added |
| `DecimalInputs.GarbageThrows` | scripts/bil/fund-account.ts:41-43 | A whole part with anything but digits behind its first character makes it throw |
| `DecimalInputs.SecondDotIgnored` | scripts/bil/fund-account.ts:41 | Everything from a second dot on is ignored |
| `Decimals.RoundTripIff` | scripts/loop-bil-position.ts:28-34 | Reading back a formatted amount gives it cut to the shown decimals, if and only if it is non-negative or shows zero decimals |
| `Decimals.Fmt18RoundTrip` | scripts/loop-bil-position.ts:28-34 | At 18 decimals with six shown: x - x mod 10^12 |
| `AddressCodec.NumToBuffer` | markets/hydration/helpers.ts:1-5 | The loop of truncating stores writes the number's low four bytes, big end first |
| `AddressCodec.TokenAddress` | markets/hydration/helpers.ts:7-16 | Buffer fill and copy give the address of the id |
| `AddressProofs.TokenAddressReads` | helpers/proposal-decoder.ts:166-173 | The address of any id has the precompile form and spells that id modulo 2^32 |
| `AddressProofs.ResolveInvertsToken` | helpers/proposal-decoder.ts:158-174 | For ids below 2^32 the decoder recovers the id, whatever names are loaded |
| `AddressProofs.TokenAddressCollides` | markets/hydration/helpers.ts:1-16 | Two ids share an address if and only if they agree modulo 2^32 |
| `AddressProofs.PatternIsImage` | helpers/proposal-decoder.ts:169 | The pattern accepts exactly the addresses that the encoder writes, in any letter case |
| `AddressProofs.LabelInjective` | helpers/proposal-decoder.ts:171-173 | Different ids never get the same label |
| `AddressProofs.KnownLabels` | helpers/proposal-decoder.ts:142-151 | The seven assets with a symbol and their labels, and the label of every other id |
| `AddressProofs.OtherAddresses` | helpers/proposal-decoder.ts:158-185 | What is neither an asset nor a pallet account goes by the loaded names in any letter case, or has no label, and a malformed address has none |
| `AddressProofs.SubstrateLabelIff` | helpers/proposal-decoder.ts:198-216 | A text is labelled if and only if it is base 58 of SS58 length and decodes to 32 bytes that start with "modl", and then with the pallet id in the next eight |
| `AddressProofs.PalletLabelInjective` | helpers/proposal-decoder.ts:214-215 | Different pallets never share a label, the treasury's included |
| `AddressProofs.CaseInsensitive` | helpers/proposal-decoder.ts:160 | Addresses that differ in the case of their letters only have the same label |
| `AddressProofs.PalletLabelsAgree` | helpers/proposal-decoder.ts:178-216 | A pallet account has the same label as SS58 and as its first 20 bytes in hex |
| `AddressProofs.EvmAddressInvertsPad` | helpers/hydration-proposal.js:14-18 | `evmAddress(padAddress(a))` is `a` in lower case for every 20-byte address |
| `AddressProofs.PaddedShape` | helpers/hydration-proposal.js:14-18 | A padded address is the address and twelve zero bytes |
| `AddressProofs.PaddedBare` | helpers/hydration-proposal.js:14-18 | A text without a prefix is kept whole and filled with zeros to 32 bytes |
| `AddressProofs.EvmAddressIsPrefix` | helpers/hydration-proposal.js:204-208 | The EVM address of any 32-byte hex account is its first twenty bytes, in lower case |
| `CallTreeProofs.LeafExact` | helpers/proposal-decoder.ts:290-297 | A hex string becomes what it decodes to, when that is something, and every other scalar stays |
| `CallTreeProofs.CallIff` | helpers/proposal-decoder.ts:313 | Call nodes are exactly the objects with a pallet and a method that count as true |
| `CallTreeProofs.CleanStays` | helpers/proposal-decoder.ts:290-338 | A tree without calls, calldata, nulls and empty parts comes out as it went in |
| `CallTreeProofs.TextOfStrings` | helpers/proposal-decoder.ts:319 | A pallet or method that is an array of strings reads as their comma-separated list |
| `CallTreeProofs.TextOfNumber` | helpers/proposal-decoder.ts:319 | One that is a number reads as its decimal digits with its sign, and a truth value, null or object as JavaScript prints it |
| `CallTreeProofs.PrunesIff` | helpers/proposal-decoder.ts:290-338 | Every tree comes out with no null and nothing empty below the root, if and only if everything that hex strings decode to is so |
| `CallTreeProofs.IdempotentIff` | helpers/proposal-decoder.ts:290-338 | A second pass changes nothing on any tree, call nodes included, if and only if it changes nothing that hex strings decode to |
| `CallTreeContents.TransformKeepsScalars` | helpers/proposal-decoder.ts:299-337 | The scalars of the result are the decoded scalars of the input that can be reached, in order; of a call node only the arguments can be reached |
| `CallTreeContents.SurvivesIff` | helpers/proposal-decoder.ts:303-322 | A subtree leaves something behind if and only if some scalar reachable in it decodes to something that is not empty; a call without such an argument vanishes |
| `CallTreeContents.ArglessCallVanishes` | helpers/proposal-decoder.ts:313-322 | The smallest case: a call with empty arguments disappears from its list |
| `CallTreeContents.NamesExact` | helpers/proposal-decoder.ts:313-337 | All keys of the result, in order: those of calls and objects with content, calls under their folded name |
| `CallTreeContents.CallsInOrder` | helpers/proposal-decoder.ts:313-322 | Of all reachable call nodes exactly those with content survive, and their folded names occur in the result in the same order |
| `CallTreeContents.FoldedKey` | helpers/proposal-decoder.ts:314-323 | A call node with arguments left becomes one entry, keyed by pallet, dot, method |
| `CallTreeContents.FoldingInjective` | helpers/proposal-decoder.ts:314-323 | Folded call nodes are equal only if pallet, method and transformed arguments are |
| `SameMembers.ContainsSameMembers` | helpers/utilities/utils.ts:32-34 | Both arrays are left sorted, one array passed twice included, and the result compares the joined texts |
| `SameMembers.SortSorts` | helpers/utilities/utils.ts:32-34 | What is left in an array is a sorted permutation of what was there |
| `SameMembers.FirstDifferenceDecides` | helpers/utilities/utils.ts:33 | The order they are left in: the first differing character decides, and a prefix comes first |
| `SameMembers.SortedUnique` | helpers/utilities/utils.ts:32-34 | A multiset of strings has one sorted arrangement |
| `SameMembers.JoinInjective` | helpers/utilities/utils.ts:32-34 | Joining with commas is injective on non-empty arrays of comma-free strings |
| `SameMembers.ComparesMembers` | helpers/utilities/utils.ts:32-34 | On comma-free strings it decides multiset equality, except that an empty array passes for one empty string |
| `SameMembers.ComparesMultisets` | deploy/02_market/00_setup_addresses_provider.ts:39-42 | On non-empty comma-free strings it decides multiset equality |
| `SameMembers.DecidesIffCommaFree` | helpers/utilities/utils.ts:32-34 | Over an alphabet, for all arrays of non-empty strings: it decides multiset equality if and only if the comma is not in the alphabet |
| `SameMembers.CommasConfuse` | helpers/utilities/utils.ts:32-34 | One string of three commas and two strings of one comma are taken for the same members |

## Left out

- ReserveInit.InitReservesByHelper: configuration keys are assumed distinct and in the order given; JavaScript moves number-like keys to the front.
- LaunchBuilder.InitReserveTask: the market's own reserve, with its address and oracle adapter configured, so the early return for an unknown symbol does not arise; the strategy deployment and the ReservesSetupHelper ownership transfers it makes at build time are not part of the model.
- ReserveConfigure.SetupHelper.ConfigureReservesByHelper: the setup helper is owned by the sender and a risk admin already; the collateral's own borrowing flags and caps, which are off in both markets, are not part of the terms.
- LaunchBuilder.ReviewReserveFactorsTask: takes the pool's reserve list as distinct addresses; the HOLLAR filter is by address, as the script's by symbol.
- LaunchSettings.SettingsExact: for a collateral that is not itself borrowable, as in both markets, so its borrow cap and stable-rate flag are never set; its threshold is positive.
- Chain.RunKeepsValid: uniqueness of locations in the asset registry is not modelled, and `approveContract` is taken to fail for an approved contract (the stricter reading).
- LeverageLoop.LoopPosition: prices and zap results are fixed parameters; interest, price drift, token allowances, transaction nonces, caps and the pool's borrow checks other than its LTV check are not modelled.
- Decimals.ToBaseUnitsExact: number texts that `BigInt` accepts beyond optionally signed decimal digits (hexadecimal, surrounding space) count as errors here.
- Decimals.RoundTripIff: `fmt8` is the same formula with 8 and 4, for non-negative amounts only.
- AddressProofs.EvmAddressInvertsPad: `toLowerCase` acts on the letters A to Z only, and `createType` is read as hex decoding of 32 bytes.
- AddressProofs.PalletLabelsAgree: SS58 decoding is an arbitrary function.
- CallTreeProofs.PrunesIff: ABI decoding of hex leaves is an arbitrary function; `undefined` and null are one value.
- SameMembers.ContainsSameMembers: elements are strings, ordered by character; the library's sort appears as an insertion sort whose result is written back into the array.
- The SS58 forms of `account` and `resolveTarget`, `loadAddressMap` and the decoder's artifact loading: I/O around library codecs.
- `getPairsTokenAggregator`, `filterMapBy`, `savePoolTokens`, configuration tables, report printers: would only add easy members.
- Referenda, whitelisting, signing, polling, gas and nonce retries: unseen runtime and plumbing.
- The contracts themselves (vault, CheckedOracle, Pool, GHO): only the effects the scripts rely on.
