# TipJar contracts: a verified model

A Dafny model of the Soroban (Stellar) contracts in this repository and proofs
about every run of them. `dafny verify dfyconfig.toml` checks the project.

What is modelled, and where:

| files | component |
|---|---|
| `TipJar.dfy` | the live TipJar contract as a transition function on its storage, every entrypoint that writes |
| `TipJarMigration.dfy` | lazy v1 to v2 migration cannot be told from migrating everything up front |
| `TipJarSolvency.dfy` | conservation of every token, and solvency |
| `TipJarPayouts.dfy`, `TipJarOperators.dfy` | payout-address delay, operator allowances |
| `TipJarGovernance.dfy`, `TipJarPause.dfy` | admin, collector and upgrade protocols, pause state |
| `TipJarAnswers.dfy`, `TipJarAllowlist.dfy` | exactly when each entrypoint succeeds, and the history of the token allowlist |
| `TipJarContract.dfy` | the money and allowlist entrypoints as a class updated step by step, proved against `TipJar.dfy` |
| `CircuitBreaker.dfy`, `WindowLog.dfy` | the circuit-breaker guard and its bound over real time |
| `GuardDecision.dfy` | the guard's decisions against the history of admitted tips |
| `TwapOracle.dfy` | the ring buffer against the full price history |
| `QuadraticFunding.dfy` | Newton square root, pro-rata payout, a funding round |
| `BondingCurve.dfy`, `PricingLaw.dfy` | pricing, trapezoid integral, reserve ledger; what is charged, without naming how it is computed |
| `LiquidityMining.dfy`, `MiningLaw.dfy`, `MiningContract.dfy` | accrual, vesting, one program's ledger, what it pays, and all programs of a contract |
| `StreamingVesting.dfy` | vesting streams and their escrow |
| `RecursiveProof.dfy` | Merkle folding and the optimising pass, for any hash function |
| `RateLimiter.dfy` | the sliding-window limiter against the unpruned list |
| `Host.dfy`, `Arithmetic.dfy` | machine integers, finite sums, floor division |

## Conventions

* A panic discards every write, so a failing call leaves the state as it was.
  The circuit-breaker guard is the exception: it returns its error as a value,
  so a refusal is a committed state.
* The host's work arrives as parameters: ledger sequence or clock, the set of
  authorised addresses, and whether the token contract accepts a transfer from
  somebody else. A transfer moves exactly its amount or fails (the `transfer`
  function of SEP-41). Ledger sequence and clocks never go back.
* A TipJar run may contain, between calls, any change of any token balance by
  others, except that nobody else debits the jar. The jar never authorises a
  call; `SelfTipLosesSlack` shows why that matters.
* `u32` ledger sums wrap: the release profile does not turn overflow checks on.
  Where a delay depends on such a sum, the exact condition is proved
  (`PayoutDelayExact`, `UpgradeTimelockExact`). Acceptance windows need none,
  since a wrapped expiry only shortens them.
* Pause masks are sets of feature bits; `|` is union, `& !` is difference.
* `TruncDiv` and `Quot` are Rust's division, truncating toward zero. Saturating
  operations of the guard, the oracle, the funding round and the vesting end time
  are written out, and so are the wrapping Newton loop and the wrapping products
  of funding shares. Other sums and products of the legacy modules, the amounts
  in proof nodes included, are mathematical integers, which agree with the source
  while they fit 128 bits: that range is part of what a run is
  (`StreamingVesting.IsStep`, `BondingCurve.InRange`, `MiningLedger.InRange`), and
  `TradeFitsExactly` and `OpFits` show that its few conditions keep every
  intermediate value within 128 bits. What is held of one token always fits 128
  bits, since SEP-41 amounts do.
* Where an entrypoint requires its caller's authorisation, the caller is never the
  contract itself. Vesting requires none, so there the contract is one of the
  possible senders and recipients, and its transfers to itself move nothing.

## Where code and documentation differ

* `guardian_pause_expiry_ledger` is documented as 0 when no guardian pause is
  active (`contracts/tipjar/src/lib.rs:1101-1105`). The stored expiry is never
  reset, and a new guardian pause revives expired guardian bits. The model
  follows the code; `PauseEqualsHistory` states what holds.
* The guard's windows tumble and are checked before a tip is added, so one
  window can exceed its threshold by one tip, and a real time span meets several
  windows. The rate limiter counts an admitted tip twice. `VolumeSafety` states
  the bounds that the code does meet.
* Backoff lengthens repeated halts, but a saturated product is divided by 10000
  afterwards. `CooldownNeverShrinks` states exactly which configurations shorten
  a repeated halt, and `CooldownCanShrink` gives one.
* The bonding-curve header says that every holder can always sell back
  (`contracts/tipjar-legacy/src/bonding_curve.rs:15-16`). The step width is
  truncated, and so is the price of a sale, so the code does not keep this in two
  ways: `SellBackCanFail` gives three trades that leave a reserve too small, and
  `DustCannotBeSold` a sale refused because its price truncates to 0.
  `SellBackExact` states exactly when a sale goes through.
* Vesting documents a deposit with every stream. A stream that the contract itself
  creates deposits nothing; `CreateKeepsExact` states when that is covered, and
  `SelfCreateLoses` gives the case that is not.
* `isqrt_scaled` documents the floor root of every amount. Above the 128-bit range
  it returns -2^126; `IsqrtScaled` states the exact condition.
* A round without projects distributes nothing and its pool stays in escrow
  (`DistributionConserves`).

## Model

| member | source | states |
|---|---|---|
| `TipJarSolvency.Solvency` | contracts/tipjar/src/lib.rs:424-658 | Over every run: if the jar initially holds what it owes, then at every later point and in every token its holding covers all creator balances (v1 and v2) plus the fees (v1 counter and per-token) |
| `TipJarSolvency.RunConserves` | contracts/tipjar/src/lib.rs:424-658 | Over every run, exactly: holding minus debt changes by nothing but gifts to the jar and payouts that name the jar itself; neither is ever negative, and the storage stays well formed |
| `TipJarSolvency.PerformConserves` | contracts/tipjar/src/lib.rs:391-1553 | Every successful entrypoint conserves each token exactly, keeps the storage invariant and never lowers a lifetime total |
| `TipJarSolvency.TipEffect` | contracts/tipjar/src/lib.rs:424-509 | A tip books net amount, gross total and fee at one (creator, token), reads of everything else unchanged; exactly `amount` leaves the sender and reaches the jar |
| `TipJarSolvency.WithdrawEffect` | contracts/tipjar/src/lib.rs:539-658 | A withdrawal takes a positive amount within the balance off that balance alone, leaves totals and fees readable as before, and pays exactly that amount to the target |
| `TipJarSolvency.WithdrawFeesEffect` | contracts/tipjar/src/lib.rs:1329-1376 | Only the stored collector withdraws, within that token's fees (both formats), and no creator amount changes |
| `TipJarSolvency.FeeSplit` | contracts/tipjar/src/lib.rs:1397-1414 | At any amount and rate fee + net = amount and the fee is the exact share cut toward zero; the computation fails exactly when the product leaves 128 bits; at the rates that can be set a tip's fee is at most a ninth of its net |
| `TipJarSolvency.GettersRead` | contracts/tipjar/src/lib.rs:512-527 | The getters, which migrate on the way, return what the two storage formats together say |
| `TipJarSolvency.SelfTipLosesSlack` | contracts/tipjar/src/lib.rs:424-509 | Why runs exclude the jar's own authorisation: a tip from the jar itself would lower the surplus by the amount |
| `TipJarSolvency.EmptyStorageIsGood` | contracts/tipjar/src/lib.rs:391-417 | A fresh contract satisfies the invariant and owes nothing |
| `TipJarSolvency.TotalsNeverFall` | contracts/tipjar/src/lib.rs:424-658 | Between any two points of a run lifetime totals never fall, and every balance stays within [0, lifetime total] |
| `TipJarAnswers.TipDecides` | contracts/tipjar/src/lib.rs:424-509 | The answer of a tip: it succeeds exactly when the sender authorised it, tips are not paused, the amount is positive, there is an admin, the token is listed, the fee's product fits, the tokens move, and what is read afterwards fits 128 bits; otherwise the error of the first of these that fails |
| `TipJarAllowlist.RunTipDecides` | contracts/tipjar/src/lib.rs:424-509 | The same at any step of any run, with the token listed by its history: a tip in a token never listed, or removed since, never succeeds |
| `TipJarAllowlist.ListEqualsHistory` | contracts/tipjar/src/lib.rs:661-724 | At every point of a run a token is listed if and only if `init` or `add_token` named it and it was not removed since |
| `TipJarAllowlist.StepLists` | contracts/tipjar/src/lib.rs:391-724 | Each step lists and delists exactly by its event, for every token |
| `TipJarAnswers.WithdrawDecides` | contracts/tipjar/src/lib.rs:539-658 | The answer of a withdrawal: beyond the checks on the request, it succeeds exactly when an operator's unexpired allowance covers it, the target is the payout address in force, and the tokens move; otherwise the first failing condition's error |
| `TipJarAnswers.WithdrawFeesDecides` | contracts/tipjar/src/lib.rs:1329-1376 | The answer of a fee withdrawal, with the error of the first failing condition |
| `TipJarAnswers.RoleCallDecides` | contracts/tipjar/src/lib.rs:803-965 | Exactly when each role and upgrade call succeeds |
| `TipJarAnswers.StrangersFail` | contracts/tipjar/src/lib.rs:1427-1431 | The error of an admin-only call that somebody else makes |
| `TipJarAnswers.BreakerCallDecides` | contracts/tipjar/src/lib.rs:1030-1157 | Exactly when guardian, pause and unpause calls succeed, what the settings read afterwards, and when a guardian pause expires |
| `TipJarAnswers.PayoutCallDecides` | contracts/tipjar/src/lib.rs:726-793 | Exactly when payout and operator calls succeed |
| `TipJarAnswers.ConfigCallDecides` | contracts/tipjar/src/lib.rs:661-724 | Exactly when fee, migration and allowlist calls succeed, and what is stored and listed afterwards |
| `TipJarAnswers.InitDecides` | contracts/tipjar/src/lib.rs:391-417 | `init` succeeds exactly once, with a timelock, and stores admin, timelock, token and a one-token allowlist |
| `TipJarAnswers.DelegateChooses` | contracts/tipjar/src/lib.rs:1435-1469 | A v1-style call is the same call on the first listed token |
| `TipJarMigration.LazyRunMatchesEager` | contracts/tipjar/src/lib.rs:424-1553 | Run for run from any v1 storage: each call returns the same value or the same error, and moves the same tokens, as in the jar whose entries were all converted up front; the worlds stay conversions of each other |
| `TipJarMigration.LazyStepMatchesEager` | contracts/tipjar/src/lib.rs:424-1553 | The same for one call of any kind, v1-style entrypoints included |
| `TipJarMigration.WorldConversionExists` | contracts/tipjar/src/lib.rs:1497-1553 | Every well-formed v1 storage has such a conversion, so the comparison always has its other side |
| `TipJarMigration.MoveConverted` | contracts/tipjar/src/lib.rs:1497-1526 | Moving a v1 entry changes nothing of the conversion, and the entry reads as it does in the converted jar; a present v1 key still has no v2 counterpart |
| `TipJarMigration.MigrateFeesConverted` | contracts/tipjar/src/lib.rs:1531-1553 | The same for the v1 fee counter, which always can be migrated |
| `TipJarPayouts.PaymentsFollowNames` | contracts/tipjar/src/lib.rs:597-757 | Over every run: a withdrawal pays the creator if no change was ever applied, otherwise the address of the last change applied, traced to the point where it was named with no cancel or newer name in between |
| `TipJarPayouts.PayoutDelay` | contracts/tipjar/src/lib.rs:726-746 | That naming was authorised by the creator at least 17,280 ledgers before the change was applied, unless the u32 sum wraps |
| `TipJarPayouts.PayoutDelayExact` | contracts/tipjar/src/lib.rs:726-746 | The delay is kept if and only if ledger + 17,280 stays below 2^32 |
| `TipJarPayouts.SlotsExplained` | contracts/tipjar/src/lib.rs:597-640 | The stored payout address and pending change are, at every point, what the history of named, cancelled and paid events says, absence included |
| `TipJarPayouts.HistoryExists` | contracts/tipjar/src/lib.rs:726-757 | Every run has such a history for every creator |
| `TipJarGovernance.RoleHandover` | contracts/tipjar/src/lib.rs:803-874 | Over every run: admin or fee collector change only when the proposed address itself accepts, at most 34,560 ledgers after the then-admin proposed it, with no cancel or other proposal since |
| `TipJarGovernance.UpgradeTimelock` | contracts/tipjar/src/lib.rs:894-965 | Over every run: only a hash the then-admin proposed and nobody cancelled is executed, no earlier than the ledger stored with it; in a run from before `init` that is the proposal's ledger plus the timelock given to `init`, unless the u32 sum wraps |
| `TipJarGovernance.TimelockFromInit` | contracts/tipjar/src/lib.rs:391-417 | At every point of a run from before `init`, the stored timelock is the one given to the one successful `init` |
| `TipJarGovernance.UpgradeTimelockExact` | contracts/tipjar/src/lib.rs:894-965 | A proposed upgrade stays locked for its whole timelock if and only if the u32 sum does not wrap |
| `TipJarGovernance.CarriedOutWasOpen` | contracts/tipjar/src/lib.rs:803-965 | The propose / carry out / cancel protocol shared by all three: what is carried out is the one open proposal |
| `TipJarGovernance.HolderStays` | contracts/tipjar/src/lib.rs:803-965 | With nothing carried out between two points of a run, role and timelock are unchanged |
| `TipJarGovernance.HistoryExists` | contracts/tipjar/src/lib.rs:803-965 | Every run has such a history for each of the three offices |
| `TipJarGovernance.RoleCallFollows` | contracts/tipjar/src/lib.rs:1232-1316 | Each role entrypoint moves each office by its event, within what the stored proposal and the authorisations permit; at most one proposal of a kind is pending |
| `TipJarGovernance.OtherCallsKeepRoles` | contracts/tipjar/src/lib.rs:391-1553 | No other entrypoint touches the roles, except `init`, once |
| `TipJarPause.PauseEqualsHistory` | contracts/tipjar/src/lib.rs:1087-1178 | At every point and ledger a feature is paused if and only if the last admin action on it was a pause, or the guardian paused it since and the expiry of the most recent guardian pause of any feature is not reached |
| `TipJarPause.HistoryExists` | contracts/tipjar/src/lib.rs:1058-1157 | Every run has such a history |
| `TipJarPause.PauseBlocks` | contracts/tipjar/src/lib.rs:1161-1178 | No tip, withdrawal or payout change succeeds while the history says its feature is paused |
| `TipJarPause.GuardianNeverClears` | contracts/tipjar/src/lib.rs:1111-1139 | A guardian action clears no admin pause at any ledger, and revives every guardian bit until the new expiry |
| `TipJarPause.StepFollows` | contracts/tipjar/src/lib.rs:1058-1157 | Each step moves the pause state by its event; pausing needs the admin or the guardian, clearing the admin |
| `TipJarOperators.OperatorBudget` | contracts/tipjar/src/lib.rs:565-595 | Over every run: whatever an operator takes was granted by the creator, not revoked or replaced, not expired, and together with everything taken under the same grant within its amount |
| `TipJarOperators.AllowanceExplained` | contracts/tipjar/src/lib.rs:759-793 | A stored allowance leads back to the grant in use, and is what was granted less everything spent since |
| `TipJarOperators.HistoryExists` | contracts/tipjar/src/lib.rs:759-793 | Every run has such a history for every creator and operator |
| `TipJarContract.Contract.Tip` | contracts/tipjar/src/lib.rs:424-509 | The step-by-step entrypoint leaves exactly the specified storage and tokens, or fails with the specified error and changes nothing |
| `TipJarContract.Contract.Withdraw` | contracts/tipjar/src/lib.rs:539-658 | The same for withdrawals, with the host undoing the migration and allowance writes of a panicking call |
| `TipJarContract.Contract.WithdrawFees` | contracts/tipjar/src/lib.rs:1329-1376 | The same for fee withdrawals |
| `TipJarContract.Contract.BookTip` | contracts/tipjar/src/lib.rs:448-494 | The three writes of a tip after migration equal the specified booking |
| `TipJarContract.Contract.PayCreator` | contracts/tipjar/src/lib.rs:565-645 | Allowance, matured payout change, target check and transfer, in the source's order |
| `TipJarContract.Contract.MaybeMigrateCreatorData` | contracts/tipjar/src/lib.rs:1497-1526 | Write-new then delete-old, per key, equals the specified move of balance and total |
| `TipJarContract.Contract.MaybeMigrateFeeBalance` | contracts/tipjar/src/lib.rs:1531-1553 | The v1 fee counter is added once and removed, or the overflow is reported |
| `TipJarContract.Contract.IsTokenAllowed` | contracts/tipjar/src/lib.rs:1478-1492 | The allowlist loop finds a token if and only if it is listed |
| `TipJarContract.Contract.SplitOff` | contracts/tipjar/src/lib.rs:693-724 | The removal loop keeps exactly the other tokens, in order |
| `TipJarContract.Contract.AddToken` | contracts/tipjar/src/lib.rs:661-689 | Appends once, or fails for a missing admin, a full list or a duplicate |
| `TipJarContract.Contract.RemoveToken` | contracts/tipjar/src/lib.rs:693-724 | Drops the token, or fails for a missing admin or an unlisted token |
| `TipJar.WithoutKeepsOthers` | contracts/tipjar/src/lib.rs:693-724 | Removing a token removes all of it and keeps every other token as often as before |
| `TipJarContract.CreditAfterMigration` | contracts/tipjar/src/lib.rs:434-494 | Migrating first makes no difference to what a tip books |
| `CircuitBreakerSafety.VolumeSafety` | contracts/tipjar-legacy/src/circuit_breaker.rs:2774-2867 | Over every run, from an empty store or an initialised state, and any real time span that k gaps cover: admitted volume is at most (k + 1) x (threshold + max_single_tip), for each of the four windows, and admitted tips at most (k + 1) x half the rate limit; the gap is the window length or the base cooldown, whichever is shorter |
| `CircuitBreakerSafety.CombinedSafety` | contracts/tipjar-legacy/src/circuit_breaker.rs:652-673 | All volume counters measure the same tips, so the volume in any span is within the bound that any of the four gives, and thus within the smallest |
| `CircuitBreakerSafety.WindowSafety` | contracts/tipjar-legacy/src/circuit_breaker.rs:2774-2867 | The case of a halt that lasts as long as the window: at most 2 x (threshold + max_single_tip) in any span of that length |
| `CircuitBreakerSafety.DefaultSafety` | contracts/tipjar-legacy/src/circuit_breaker.rs:178-197 | The smallest of these bounds in numbers under the default configuration, whose 300-second halts are shorter than its hour and day windows |
| `GuardDecision.GuardDecides` | contracts/tipjar-legacy/src/circuit_breaker.rs:2774-2867 | The decision at every attempt of every run: refused without a trace while a halt runs or maintenance is on; otherwise admitted if and only if no limit is exceeded by what was admitted in the windows still open; and the first limit exceeded halts the guard, with its severity, for the cooldown of that severity and the number of earlier halts |
| `GuardDecision.RunMetered` | contracts/tipjar-legacy/src/circuit_breaker.rs:612-649 | What every counter stores is what the run admitted in its current window, opened by the first tip after the last one was over or closed by a halt |
| `GuardDecision.CountsTriggers` | contracts/tipjar-legacy/src/circuit_breaker.rs:1273-1290 | The stored trigger count is the number of halts so far |
| `GuardDecision.WindowStatistics` | contracts/tipjar-legacy/src/circuit_breaker.rs:612-634 | What a window records beside its volume: tips, largest tip, senders |
| `GuardDecision.AnomalyLaw` | contracts/tipjar-legacy/src/circuit_breaker.rs:909-968 | The moving average takes in the amount, cut toward zero, and the score of the amount is 0 up to two standard deviations, 10,000 from three, and proportional between |
| `GuardDecision.AnomalyFollows` | contracts/tipjar-legacy/src/circuit_breaker.rs:2599-2672 | The statistics take in exactly the tips that pass all limits before the anomaly check |
| `CircuitBreakerSafety.RunGood` | contracts/tipjar-legacy/src/circuit_breaker.rs:2625-2686 | Invariant behind it: every window's counter is what was admitted in it, windows follow each other at least a gap apart, nothing is counted between a trigger and its recovery |
| `CircuitBreakerSafety.InitialGood` | contracts/tipjar-legacy/src/circuit_breaker.rs:2870-2882 | Both an empty store and the state that initialisation stores satisfy the invariant |
| `CircuitBreakerSafety.LogIsComplete` | contracts/tipjar-legacy/src/circuit_breaker.rs:2774-2867 | Every admitted tip is in the log that the bound speaks about |
| `CircuitBreakerSafety.HaltHolds` | contracts/tipjar-legacy/src/circuit_breaker.rs:1314-1328 | Along a run, every attempt before a stored halt ends is refused and leaves the state as it is |
| `CircuitBreakerSafety.TriggerHalts` | contracts/tipjar-legacy/src/circuit_breaker.rs:1273-1290 | Along a run, a trigger refuses every later attempt for at least the base cooldown |
| `CircuitBreakerSafety.RefusalFacts` | contracts/tipjar-legacy/src/circuit_breaker.rs:1273-1290 | A refusal leaves the stored state alone or starts a halt of at least the base cooldown, as far as the clock goes |
| `CircuitBreaker.Guard.CheckCircuitBreaker` | contracts/tipjar-legacy/src/circuit_breaker.rs:2774-2867 | The field-by-field guard, anomaly averages included, stores and answers what the transition function says, errors being committed |
| `CircuitBreaker.CalculateCooldown` | contracts/tipjar-legacy/src/circuit_breaker.rs:573-604 | The saturating backoff loop, clamped, computes the specified cooldown |
| `CircuitBreaker.CooldownBounds` | contracts/tipjar-legacy/src/circuit_breaker.rs:573-604 | A cooldown lies between the base and the maximum |
| `CircuitBreaker.CooldownLaw` | contracts/tipjar-legacy/src/circuit_breaker.rs:573-604 | How long a halt lasts: half, one, two or four times the base by severity, backed off once per earlier trigger but at most five times, each product saturating and cut, kept between base and maximum |
| `CircuitBreaker.CooldownNeverShrinks` | contracts/tipjar-legacy/src/circuit_breaker.rs:573-604 | For every valid configuration and severity: more triggers never shorten a halt, if and only if it is not the case that backoff is on, the severity's cooldown and the maximum exceed (2^64-1)/10000 and their minimum exceeds the base cooldown |
| `CircuitBreaker.CooldownCanShrink` | contracts/tipjar-legacy/src/circuit_breaker.rs:573-604 | A valid configuration in the failing set: its second halt of high severity is half as long as its first |
| `WindowLog.SpanBound` | contracts/tipjar-legacy/src/circuit_breaker.rs:612-649 | Tumbling windows bounded by b that begin at least a gap apart admit at most (k + 1) x b in any span that k gaps cover |
| `WindowLog.StartsBound` | contracts/tipjar-legacy/src/circuit_breaker.rs:612-649 | At most k windows begin within k gaps, so at most k x b is counted in them |
| `TwapOracle.Oracle.RecordPrice` | contracts/tipjar-legacy/src/twap_oracle.rs:286-341 | Appends to the full history exactly one observation, with the accumulator extended by the previous price's time in force, or fails with the specified error and changes nothing; the ring keeps holding the newest `capacity` observations |
| `TwapOracle.Oracle.CollectWindow` | contracts/tipjar-legacy/src/twap_oracle.rs:172-210 | Returns, oldest first, exactly the longest suffix of the available history no older than newest - window |
| `TwapOracle.Oracle.GetTwap` | contracts/tipjar-legacy/src/twap_oracle.rs:356-410 | The answer is the one computed from that suffix of the full history, for the requested window clamped as in the source |
| `TwapOracle.WindowUnique` | contracts/tipjar-legacy/src/twap_oracle.rs:172-210 | There is exactly one such suffix, so the answers are determined by the full history |
| `TwapOracle.TwapIsAverage` | contracts/tipjar-legacy/src/twap_oracle.rs:356-410 | Unless the accumulator is saturated, that answer is the floor of the time-weighted average price and lies between the least and greatest price in force |
| `TwapOracle.WindowForLaw` | contracts/tipjar-legacy/src/twap_oracle.rs:356-375 | A request of 0 means the oracle's own window, any other is kept between 60 and 604,800 seconds |
| `TwapOracle.TooFewObservations` | contracts/tipjar-legacy/src/twap_oracle.rs:356-410 | With fewer than two observations in the window the answer is the last price, over no time |
| `TwapOracle.Telescopes` | contracts/tipjar-legacy/src/twap_oracle.rs:286-341 | The difference of two accumulators is the time-weighted sum of the prices between them |
| `TwapOracle.Oracle.GetObservations` | contracts/tipjar-legacy/src/twap_oracle.rs:419-440 | The `limit` newest available observations, oldest first |
| `TwapOracle.Oracle.Create` | contracts/tipjar-legacy/src/twap_oracle.rs:220-280 | The parameter checks in order, then a valid oracle whose history is the seed |
| `TwapOracle.RingIndexIsSlot` | contracts/tipjar-legacy/src/twap_oracle.rs:165-167 | Stepping back round the ring finds the slot of the observation that many updates ago |
| `TwapOracle.AgreesAfter` | contracts/tipjar-legacy/src/twap_oracle.rs:286-341 | One write keeps the ring, the write index and the last price in agreement with the history |
| `TwapOracle.AvailableExact` | contracts/tipjar-legacy/src/twap_oracle.rs:172-210 | The count cut to 32 bits covers the buffer if and only if it is below 2^32 or its low 32 bits reach the capacity |
| `QuadraticFunding.Newton` | contracts/tipjar-legacy/src/quadratic_funding.rs:96-104 | The Newton loop, in wrapping 128-bit arithmetic, terminates with r^2 <= n < (r+1)^2 for every n but the largest integer, for which it returns -2^126 |
| `QuadraticFunding.IsqrtScaled` | contracts/tipjar-legacy/src/quadratic_funding.rs:90-104 | For every amount: 0 if it is not positive; otherwise the exact floor root of amount x PRECISION^2 if and only if that product fits 128 bits |
| `QuadraticFunding.RootUnique` | contracts/tipjar-legacy/src/quadratic_funding.rs:90-104 | That root is unique, so the result is determined |
| `QuadraticFunding.SplitConserves` | contracts/tipjar-legacy/src/quadratic_funding.rs:295-333 | Matches are non-negative, add up to exactly the pool, equal the estimate for every project but the last, and reach it for the last |
| `FundingRounds.DistributionConserves` | contracts/tipjar-legacy/src/quadratic_funding.rs:272-366 | While the split's products fit 128 bits, a distribution pays exactly the pool plus every contribution when there is a project, and nothing otherwise, always within the escrow; what stays is 0, or the pool |
| `FundingRounds.MatchLaw` | contracts/tipjar-legacy/src/quadratic_funding.rs:272-366 | The law of quadratic matching: when the roots of the contributions to project i add up to q_i units and the products fit 128 bits, it is awarded the integer part of pool x q_i^2 / sum of q_j^2, the last project what is left, and all awards together are the pool |
| `FundingRounds.EqualContributors` | contracts/tipjar-legacy/src/quadratic_funding.rs:295-306 | n equal contributors of k^2 weigh n^2 times as much as one of them |
| `FundingRounds.SumsRootsAfter` | contracts/tipjar-legacy/src/quadratic_funding.rs:209-216 | The sum kept per project stays the saturating sum of the scaled roots of its contributions, in the order they came |
| `FundingRounds.EveryonePaid` | contracts/tipjar-legacy/src/quadratic_funding.rs:308-366 | Every address is paid exactly its matches plus its own contributions |
| `FundingRounds.AwardedExact` | contracts/tipjar-legacy/src/quadratic_funding.rs:295-333 | While the split's products fit 128 bits, the wrapping computation awards the exact split |
| `FundingRounds.AwardedAt` | contracts/tipjar-legacy/src/quadratic_funding.rs:313-333 | In range or not, every project but the last is awarded the share that the estimate reports, and the last what has not been paid |
| `FundingRounds.Round.DistributeMatching` | contracts/tipjar-legacy/src/quadratic_funding.rs:272-366 | At any size, with wrapping shares and saturating weights: the nested loops pay exactly the specified list of matches and refunds, or fail and change nothing, for lack of tokens exactly when the list exceeds what is held |
| `FundingRounds.PayAll` | contracts/tipjar-legacy/src/quadratic_funding.rs:308-366 | Project by project: the match, if positive, then each contributor's own contribution |
| `FundingRounds.Send` | contracts/tipjar-legacy/src/quadratic_funding.rs:330-366 | Transfers made one by one all go through if and only if their sum is within what is held |
| `FundingRounds.PaymentsAddUp` | contracts/tipjar-legacy/src/quadratic_funding.rs:308-366 | The payments add up to the positive matches plus the refunds |
| `FundingRounds.Round.Contribute` | contracts/tipjar-legacy/src/quadratic_funding.rs:154-240 | One contribution per contributor and project while the round is open, with what the root computation returns added to the project's sum; otherwise the specified error, a refused transfer included, and no change |
| `FundingRounds.RegisteredAfter` | contracts/tipjar-legacy/src/quadratic_funding.rs:178-240 | Lists and contribution map stay in agreement, and refundable money rises by exactly the contribution |
| `FundingRounds.Round.Create` | contracts/tipjar-legacy/src/quadratic_funding.rs:109-150 | Rejects an empty pool or duration or a refused deposit, otherwise an open round whose escrow is the pool |
| `FundingRounds.Round.Finalize` | contracts/tipjar-legacy/src/quadratic_funding.rs:243-267 | Admin only, once, and not before the end |
| `FundingRounds.GetMatchEstimate` | contracts/tipjar-legacy/src/quadratic_funding.rs:389-421 | The estimate is the share that a distribution computes, wrapping included; while the products fit 128 bits it is the integer part of pool x q_i^2 / sum of q_j^2; 0 for a project nobody contributed to |
| `BondingCurve.RunGood` | contracts/tipjar-legacy/src/bonding_curve.rs:322-627 | Over every run in which no purchase takes tokens that back a reserve: holdings cover reserve plus fees of all curves in each reserve token, and no supply, reserve or fee counter is negative |
| `BondingCurve.StepBackedExact` | contracts/tipjar-legacy/src/bonding_curve.rs:387-627 | An operation keeps a good ledger good if and only if it changes nothing or takes no tip tokens that back a reserve |
| `BondingCurve.BuyBackedExact` | contracts/tipjar-legacy/src/bonding_curve.rs:387-454 | A purchase keeps the backing if and only if its tip token is no reserve token, or what is held of it beyond reserves and fees covers the amount |
| `BondingCurve.BuyMoves` | contracts/tipjar-legacy/src/bonding_curve.rs:387-454 | A purchase lowers what is held beyond reserves and fees in the tip token by exactly the amount, and in no other token, whichever tokens those are |
| `BondingCurve.BackingCanFail` | contracts/tipjar-legacy/src/bonding_curve.rs:387-454 | A curve whose tip token is its own reserve token: after one purchase 20 tokens are owed and none is held |
| `BondingCurve.ApartAllows` | contracts/tipjar-legacy/src/bonding_curve.rs:387-454 | When no curve's tip token is a reserve token, every purchase is one that keeps the backing |
| `BondingCurve.RoundTrip` | contracts/tipjar-legacy/src/bonding_curve.rs:387-605 | Buying and later selling the same amount, whatever other calls come between (fee changes and withdrawals, new curves, trades on other curves of the same reserve token), short of trading on the curve or deactivating it: the sale restores supply and reserve, never fails for lack of reserve, and returns at most what was paid |
| `BondingCurve.SellBackExact` | contracts/tipjar-legacy/src/bonding_curve.rs:461-543 | A sale within the supply of an active curve and within the seller's limit goes through if and only if its price does not truncate to 0 and the curve's reserve covers it, and fails with the matching error otherwise |
| `BondingCurve.SellBackCanFail` | contracts/tipjar-legacy/src/bonding_curve.rs:200-230 | 39 tokens bought on a flat curve for the price of 20, then sold back in two parts: the first sale empties the reserve, the second fails |
| `BondingCurve.DustCannotBeSold` | contracts/tipjar-legacy/src/bonding_curve.rs:461-490 | 10,000,000 tokens bought for 1, none of which can be sold on its own: its price truncates to 0 |
| `BondingCurve.TrapezoidBound` | contracts/tipjar-legacy/src/bonding_curve.rs:200-230 | For any rising price and at least one token per step: price(start) x covered range - 1 <= integral <= price(end) x range |
| `BondingCurve.CurveIntegralBounds` | contracts/tipjar-legacy/src/bonding_curve.rs:147-230 | The same for the spot prices of every valid linear and exponential curve |
| `BondingCurve.TradeFitsExactly` | contracts/tipjar-legacy/src/bonding_curve.rs:200-255 | A trade whose prices times twice its range fit 128 bits is priced and charged without any sum or product leaving them |
| `BondingCurve.LoopFits` | contracts/tipjar-legacy/src/bonding_curve.rs:200-230 | Within that range no partial sum of the loop leaves 128 bits |
| `BondingCurve.ShortRangeBound` | contracts/tipjar-legacy/src/bonding_curve.rs:207-212 | A range shorter than the number of steps is one trapezoid between the end prices |
| `BondingCurve.IntegratePrice` | contracts/tipjar-legacy/src/bonding_curve.rs:200-230 | The accumulating loop computes the trapezoid sum |
| `BondingCurve.PriceMonotone` | contracts/tipjar-legacy/src/bonding_curve.rs:147-187 | Linear and exponential prices are positive and never fall with supply |
| `BondingCurve.SigmoidWithin` | contracts/tipjar-legacy/src/bonding_curve.rs:161-195 | Sigmoid prices stay within [0, max_price] |
| `PricingLaw.LinearLaw` | contracts/tipjar-legacy/src/bonding_curve.rs:149-152 | A linear price less the base price is slope x supply / 10^7, cut toward zero |
| `PricingLaw.ExponentialLaw` | contracts/tipjar-legacy/src/bonding_curve.rs:153-160 | An exponential price is base price x e^x / 10^7 cut toward zero, for x the cut growth x supply / 10^7 |
| `PricingLaw.SigmoidLaw` | contracts/tipjar-legacy/src/bonding_curve.rs:161-195 | A sigmoid price is max price x e^z / (1 + e^z), each quotient cut toward zero, for z around the midpoint |
| `PricingLaw.ExponentialWithin` | contracts/tipjar-legacy/src/bonding_curve.rs:172-187 | The exponential is exact at 0, at least one unit, and within 95 units of its fifth Taylor polynomial everywhere inside its clamp |
| `PricingLaw.TrapezoidLaw` | contracts/tipjar-legacy/src/bonding_curve.rs:200-230 | The integral of any price is the trapezoid sum over the steps, end prices counted half, up to two half units |
| `PricingLaw.ShortLaw` | contracts/tipjar-legacy/src/bonding_curve.rs:207-212 | Over fewer tokens than steps it is one trapezoid, cut to an integer |
| `PricingLaw.LinearCost` | contracts/tipjar-legacy/src/bonding_curve.rs:237-255 | What a linear curve charges, in base price, slope, supply and amount alone, up to the cuts of the prices |
| `PricingLaw.SaleCost` | contracts/tipjar-legacy/src/bonding_curve.rs:248-255 | A sale is priced by the same law from the supply it leaves |
| `PricingLaw.BuyDecides` | contracts/tipjar-legacy/src/bonding_curve.rs:387-454 | The answer of a purchase: the error of the first condition that fails, or the cost plus the fee cut to an integer |
| `PricingLaw.SellDecides` | contracts/tipjar-legacy/src/bonding_curve.rs:461-543 | The answer of a sale: the error of the first condition that fails, or the return less the fee cut to an integer |
| `PricingLaw.UpdateFeesDecides` | contracts/tipjar-legacy/src/bonding_curve.rs:546-573 | Fees change for the creator alone, within 10%, and nothing else does |
| `PricingLaw.WithdrawFeesDecides` | contracts/tipjar-legacy/src/bonding_curve.rs:576-605 | The creator takes all collected fees, and nothing when there are none |
| `PricingLaw.DeactivateDecides` | contracts/tipjar-legacy/src/bonding_curve.rs:609-627 | An active curve is deactivated by its creator, and then neither bought from nor sold to |
| `PricingLaw.CreateDecides` | contracts/tipjar-legacy/src/bonding_curve.rs:290-380 | Exactly which parameters make a curve, and what it starts from |
| `BondingCurve.SellKeeps` | contracts/tipjar-legacy/src/bonding_curve.rs:461-543 | A sale keeps the ledger good and never fails for lack of reserve tokens held |
| `BondingCurve.WithdrawFeesKeeps` | contracts/tipjar-legacy/src/bonding_curve.rs:576-605 | Fee withdrawals never fail for lack of tokens and leave the reserve alone |
| `BondingCurve.Market.BuyTokens` | contracts/tipjar-legacy/src/bonding_curve.rs:387-454 | The entrypoint leaves the specified ledger and returns the specified cost, or fails and changes nothing |
| `BondingCurve.Market.SellTokens` | contracts/tipjar-legacy/src/bonding_curve.rs:461-543 | The same for sales |
| `MiningLedger.RunGood` | contracts/tipjar-legacy/src/liquidity_mining.rs:319-517 | Over every run: distributed = sum of claims <= allocation, total staked = sum of stakes, each claim <= vested share <= earned, boost in [1x, 3x]; holdings cover all stakes and undistributed rewards, in one token or two; earnings, claims and boost never fall |
| `MiningContract.ContractRunGood` | contracts/tipjar-legacy/src/liquidity_mining.rs:248-517 | Over every run of a contract with any number of programs: in every token, what is held covers the stakes and undistributed rewards of all programs together; each program's books agree; no position's earnings, claims or boost fall |
| `MiningContract.OnKeeps` | contracts/tipjar-legacy/src/liquidity_mining.rs:319-517 | Operating on one program keeps all of them covered, and fails in a transfer only when the token refuses a stake |
| `MiningContract.ViewGood` | contracts/tipjar-legacy/src/liquidity_mining.rs:319-517 | Every single program is covered by the common holding, whatever the others are owed |
| `MiningContract.PerformFollows` | contracts/tipjar-legacy/src/liquidity_mining.rs:319-457 | Each operation moves the holding in every token exactly with what its program owes |
| `MiningContract.OpenKeeps` | contracts/tipjar-legacy/src/liquidity_mining.rs:248-316 | A new program, its rewards paid in, leaves all programs covered |
| `MiningContract.NoProgramsGood` | contracts/tipjar-legacy/src/liquidity_mining.rs:248-316 | A contract without programs starts a good run |
| `MiningLedger.OpFits` | contracts/tipjar-legacy/src/liquidity_mining.rs:181-238 | When the first product of an accrual and the scaled earnings fit 128 bits, so do all other products of the operation |
| `LiquidityMining.PokingHardlyMatters` | contracts/tipjar-legacy/src/liquidity_mining.rs:181-213 | Accruing at any list of times never earns more than one accrual at the last, and at most 4 units less per extra time; the program end clamps both alike |
| `LiquidityMining.RewardSplit` | contracts/tipjar-legacy/src/liquidity_mining.rs:181-191 | Splitting one interval loses between 0 and 4 units |
| `LiquidityMining.VestedBounds` | contracts/tipjar-legacy/src/liquidity_mining.rs:217-238 | The vested share grows with time and earnings and stays within what was earned |
| `MiningLaw.AccrueLaw` | contracts/tipjar-legacy/src/liquidity_mining.rs:181-213 | Accrual adds the yearly rate's part of the stake for the time up to the program end, times the boost, each cut to an integer |
| `MiningLaw.VestedLaw` | contracts/tipjar-legacy/src/liquidity_mining.rs:217-238 | The vested share: nothing before the cliff, everything after the duration, linear in between in units of 10^-7 |
| `MiningLaw.BoostLaw` | contracts/tipjar-legacy/src/liquidity_mining.rs:478-486 | The boost is 1x plus 2x per year locked, in proportion, up to one year |
| `MiningLaw.ClaimDecides` | contracts/tipjar-legacy/src/liquidity_mining.rs:413-457 | The answer of a claim: the vested and unclaimed part cut to the rest of the allocation, or the error of the first failing condition |
| `MiningLaw.BoostDecides` | contracts/tipjar-legacy/src/liquidity_mining.rs:462-501 | The answer of a boost, and what is stored |
| `MiningLaw.StakeDecides` | contracts/tipjar-legacy/src/liquidity_mining.rs:319-371 | The answer of a stake, and what is stored |
| `MiningLaw.UnstakeDecides` | contracts/tipjar-legacy/src/liquidity_mining.rs:375-409 | The answer of an unstake, and what is stored |
| `MiningLaw.DeactivateDecides` | contracts/tipjar-legacy/src/liquidity_mining.rs:504-517 | An active program is deactivated once, and takes no stakes after that |
| `MiningLaw.CreateDecides` | contracts/tipjar-legacy/src/liquidity_mining.rs:248-316 | Exactly which parameters make a program, and what it starts from |
| `MiningLaw.FirstPosition` | contracts/tipjar-legacy/src/liquidity_mining.rs:337-349 | A position starts empty and unboosted at the time of the first stake |
| `MiningLedger.CreateGood` | contracts/tipjar-legacy/src/liquidity_mining.rs:248-316 | Every program that passes the creation checks, its rewards paid in, starts a good run |
| `MiningLedger.ClaimKeeps` | contracts/tipjar-legacy/src/liquidity_mining.rs:413-457 | A claim goes through if and only if something vested is unclaimed and the allocation is not exhausted, never fails for lack of tokens, and brings the claims to exactly the vested share or exhausts the allocation |
| `MiningLedger.ApplyBoostKeeps` | contracts/tipjar-legacy/src/liquidity_mining.rs:462-501 | A boost only rises and stays within 3x |
| `MiningLedger.StakeKeeps` | contracts/tipjar-legacy/src/liquidity_mining.rs:319-371 | Staking keeps the ledger invariants, the coverage of stakes included |
| `MiningLedger.UnstakeKeeps` | contracts/tipjar-legacy/src/liquidity_mining.rs:375-409 | Unstaking goes through if and only if the amount is positive and within the stake, never fails for lack of tokens, and keeps the invariants |
| `MiningLedger.MiningProgram.AccruePosition` | contracts/tipjar-legacy/src/liquidity_mining.rs:194-213 | The field updates equal the specified accrual |
| `MiningLedger.MiningProgram.StakeTokens` | contracts/tipjar-legacy/src/liquidity_mining.rs:319-371 | The entrypoint leaves the specified state and holdings, or fails and changes nothing |
| `MiningLedger.MiningProgram.UnstakeTokens` | contracts/tipjar-legacy/src/liquidity_mining.rs:375-409 | The same for unstaking |
| `MiningLedger.MiningProgram.ClaimRewards` | contracts/tipjar-legacy/src/liquidity_mining.rs:413-457 | The same for claims, returning the amount paid |
| `MiningLedger.MiningProgram.Boost` | contracts/tipjar-legacy/src/liquidity_mining.rs:462-501 | The same for boosts |
| `RecursiveProof.RootIsTreeHash` | contracts/tipjar-legacy/src/recursive_proof.rs:51-88 | For any hash function and number of nodes, folding level by level computes the Merkle tree hash of section 2.1 of RFC 6962 over the given leaf hashes |
| `RecursiveProof.OptimizePreserves` | contracts/tipjar-legacy/src/recursive_proof.rs:91-121 | Optimising changes neither which roots verify nor the total amount |
| `RecursiveProof.PairedAt` | contracts/tipjar-legacy/src/recursive_proof.rs:91-121 | Each optimised node is two neighbours under the left one's name, amounts added and hashes composed, or an odd last node as it was |
| `RecursiveProof.RepeatPreserves` | contracts/tipjar-legacy/src/recursive_proof.rs:91-121 | Any number of rounds preserves both, and enough rounds leave at most two nodes |
| `RecursiveProof.LevelKeepsTreeHash` | contracts/tipjar-legacy/src/recursive_proof.rs:66-85 | Going one level up does not change the tree hash |
| `RecursiveProof.VerifyProofChain` | contracts/tipjar-legacy/src/recursive_proof.rs:51-88 | The nested loops accept exactly the folded root, and never an empty chain |
| `RecursiveProof.OptimizeProof` | contracts/tipjar-legacy/src/recursive_proof.rs:91-121 | The loop merges neighbours pairwise and keeps an odd last node |
| `StreamingVesting.RunGood` | contracts/tipjar-legacy/src/streaming_vesting.rs:98-210 | Over every run in which the contract itself creates no stream for tokens it already owes: holdings cover, per token, what active streams still owe; an active stream has paid what was withdrawn, an ended one exactly its deposit |
| `StreamingVesting.WithdrawKeeps` | contracts/tipjar-legacy/src/streaming_vesting.rs:150-178 | A withdrawal never fails for lack of funds and brings the total withdrawn to exactly what is vested, however it was drawn before; it completes the stream if and only if the end is reached |
| `StreamingVesting.WithdrawDecides` | contracts/tipjar-legacy/src/streaming_vesting.rs:150-178 | The answer of a withdrawal: the recipient of an active stream is paid, in all, exactly what has vested linearly, if that is more than before; otherwise the first failing condition's error |
| `StreamingVesting.CancelKeeps` | contracts/tipjar-legacy/src/streaming_vesting.rs:185-210 | Cancelling never fails for lack of funds and splits the whole deposit at the vested amount |
| `StreamingVesting.CancelDecides` | contracts/tipjar-legacy/src/streaming_vesting.rs:185-210 | The answer of a cancellation: recipient and sender are paid, in all, what has vested linearly and the rest; otherwise the first failing condition's error |
| `StreamingVesting.WithdrawPaysAvailable` | contracts/tipjar-legacy/src/streaming_vesting.rs:213-220 | The recipient can withdraw if and only if the reported amount is positive, and receives exactly it |
| `StreamingVesting.VestedWithin` | contracts/tipjar-legacy/src/streaming_vesting.rs:59-69 | The vested amount is within [0, total], short of the total before the end and the total once the end has passed |
| `StreamingVesting.VestedLaw` | contracts/tipjar-legacy/src/streaming_vesting.rs:59-69 | Linear vesting: nothing up to the start, everything from the end on, and in between the share of the time passed, cut to an integer |
| `StreamingVesting.VestedMonotone` | contracts/tipjar-legacy/src/streaming_vesting.rs:59-69 | Vesting never goes back |
| `StreamingVesting.CreateStores` | contracts/tipjar-legacy/src/streaming_vesting.rs:98-144 | What a new stream stores, and exactly when it is refused |
| `StreamingVesting.CreateKeepsExact` | contracts/tipjar-legacy/src/streaming_vesting.rs:98-144 | Creating a stream keeps the ledger good if and only if somebody else deposits, or the contract itself creates it for tokens that it holds and does not owe yet |
| `StreamingVesting.SelfCreateLoses` | contracts/tipjar-legacy/src/streaming_vesting.rs:98-144 | The losing case: right after a deposit, a stream of the same amount created by the contract itself succeeds, and twice what is held is owed |
| `StreamingVesting.Vesting.CreateStream` | contracts/tipjar-legacy/src/streaming_vesting.rs:98-144 | The stream is stored before the deposit is taken; the entrypoint leaves the specified ledger, or fails and changes nothing |
| `StreamingVesting.Vesting.WithdrawVested` | contracts/tipjar-legacy/src/streaming_vesting.rs:150-178 | The entrypoint leaves the specified ledger and returns the specified amount, or fails and changes nothing |
| `StreamingVesting.Vesting.CancelStream` | contracts/tipjar-legacy/src/streaming_vesting.rs:185-210 | The same for cancellations |
| `RateLimiter.DecidesByFullHistory` | security/src/rate_limiter.rs:31-50 | Over every run under a clock that does not go back: each decision is the one the unpruned list of acceptances gives, so a request is refused if and only if the address is blacklisted, or not whitelisted with a full window |
| `RateLimiter.DecidesByCount` | security/src/rate_limiter.rs:31-50 | Every decision in numbers: an address not blacklisted is accepted if and only if it is whitelisted, or fewer than max_tx of its acceptances lie in the window that ends now |
| `RateLimiter.WindowLimit` | security/src/rate_limiter.rs:31-50 | At most max_tx acceptances of an address that is not whitelisted fall in any window of window_secs |
| `RateLimiter.PrunedDecides` | security/src/rate_limiter.rs:38-42 | Pruning a pruned list later keeps the same entries as pruning the full one |
| `RateLimiter.RemoveRemoves` | security/src/rate_limiter.rs:59-62 | Removal removes all of one address and no other |
| `RateLimiter.InsertAdds` | security/src/rate_limiter.rs:52-69 | Listing adds exactly that address, and never twice |
| `RateLimiter.ListsDistinct` | security/src/rate_limiter.rs:52-69 | In every run both lists stay free of duplicates |
| `RateLimiter.Limiter.CheckAddress` | security/src/rate_limiter.rs:31-50 | The in-place check stores and answers what the transition function says |
| `RateLimiter.Limiter.AddToBlacklist` | security/src/rate_limiter.rs:52-57 | Exactly that address is listed in addition, and no list grows a duplicate |
| `RateLimiter.Limiter.RemoveFromBlacklist` | security/src/rate_limiter.rs:59-62 | The retaining loop computes the specified removal |
| `RateLimiter.Limiter.AddToWhitelist` | security/src/rate_limiter.rs:64-69 | The same for the other list |

## Left out

- Time-to-live extension and archival of storage, event publishing, and how the host checks an authorisation.
- The `notes` of the pause state and views that only read a stored field.
- What runs after `execute_upgrade` replaces the code: a modelled run accepts no further call.
- The role, pause, payout-setting and operator entrypoints of the TipJar, which make one or two writes each, are transition functions on storage values only; the class covers the entrypoints that move money or loop.
- Circuit breaker: configuration caching and changes, manual override, emergency and maintenance switches, and per-creator and per-token limits; of anomaly tracking, what the guard reads and writes, not the scores that other calls compute.
- Circuit breaker: estimation, gas, audit, batch-query and pattern-analysis modules, which are independent scores.
- VolumeSafety: for thresholds below the largest value their counter can hold, and not in the last day that the 64-bit clock can show.
- DistributionConserves: for a pool whose product with the total weight fits 128 bits; beyond, the awarded shares wrap.
- DistributeMatching: a project that is the contract itself, whose match would stay in the contract.
- Each module is modelled with tokens of its own, although a deployed contract would hold those of all modules together.
- Storage holds many oracles and rounds by id; they are modelled one object at a time.
- Oracle `update_config` and `deactivate_oracle`, bonding-curve quotes, vesting and mining views.
- Mining: the list of programs per provider. Streams: the lists of stream ids per sender and recipient.
- The counters behind new curve and program ids.
- `generate_tip_proof` and the hash itself, which is any function of two hashes.
- The mutex of the rate limiter: a run is a sequence of whole operations.
- contracts/derivatives, limit-orders, arbitrage and risk-management, fractional ownership, retroactive funding, recovery, NFTs, identity and credential registries, payment channels, threshold signatures, disputes and privacy tips.
- The indexer, analytics, monitoring, migration scripts, backup and gas tools, SDKs and simulator.
