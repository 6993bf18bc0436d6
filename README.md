# Energy factory lock engine

A Dafny model of the lock engine of the energy factory. A user locks the base
asset for one of the durations in the lock option table. In return the user
gets locked tokens: a nonce whose attributes carry the unlock epoch. The
unlock epoch is `to_start_of_month(now + duration)`, so two locks that round
to the same month share one nonce and one position.

Each user has an *energy*: the sum over the user's positions of
`amount * (unlock_epoch - now)`. It is stored incrementally as an entry
(amount, last update epoch, total locked tokens) and is never recomputed from
the positions. Every operation first brings the entry forward to the current
epoch and then applies the change made by that operation.

There are three ways out of a lock:

- **Unlock** at or after the unlock epoch returns the tokens in full.
- **Unlock early** before maturity charges a penalty. The rest of the tokens
  pass through an unbonding delay before the user can claim them.
- **Reduce** moves the tokens to a shorter option and charges a smaller
  penalty.

Extending moves tokens to a longer option at no cost.

A share of every penalty is kept as fees. A fee charged in the week of the
current holding is held by the contract. The first fee charged in a later
week is forwarded to the fee collector at once, together with everything
held, and the holding starts over empty in the new week.

Modules:

- `Config` (config.dfy) holds the calendar (30-epoch months, 7-epoch weeks,
  360-epoch year), the option table, errors and results.
- `Arith` (arith.dfy) holds facts about truncating division.
- `Penalty` (penalty.dfy) is the penalty calculator behind
  `get_penalty_amount`.
- `EnergyLedger` (energy.dfy) holds a user's positions as a map from unlock
  epoch to amount, and the energy entry with its decay and delta updates.
  It proves that the entry always equals the true sum over the positions.
- `WeeklyFees` (fees.dfy) is the weekly fee holding.
- `Unbonding` (unbond.dfy) is the unbonding queue for early-exit proceeds.
- `EnergyFactory` (engine.dfy) has the `LockEngine` class. Its state is the
  nonces, positions, energy entries, unbonding queues and fee holding. Its
  methods are lock, unlock, unlock early, reduce, extend, the energy query
  and the claim.
- `Scenarios` (scenarios.dfy) drives the engine through each scenario of the
  test suite. Each scenario method returns the values the test checks, and
  its `ensures` states them. The option table is one year (360 epochs) at
  4000 bps and a second option at 6000 bps. The tests disagree on the second
  option's length. The comment at line 453 calls it "10 years", and the
  comment at line 383 calls it "2 initial years". The scenarios take 720
  epochs (two years). Either length gives the reduction to 360 at line 383,
  and the extension to `to_start_of_month(1 + option)` at line 464.

The behaviour comes from the scenario tests in
`locked-asset/energy-factory/tests/simple_lock_energy_test.rs`. The contract
these tests drive is not part of this model, and neither is the test setup
module `energy_factory_setup`, which holds `LOCK_OPTIONS`, `EPOCHS_IN_WEEK`,
`to_start_of_month` and `DEFAULT_UNBOND_EPOCHS`. The option table, the base
token, the unbond delay and the fee share are therefore parameters of the
engine. The calendar constants are fixed at the values the assertions imply.

Two choices of the model:

- **Forwarding fees.** The first fee of a later week is forwarded together
  with the held fees. At lines 335-345 the collector holds the shares of both
  penalties, the one charged in week 0 and the one charged in week 1.
- **Energy after maturity.** The linear formula is kept past the unlock
  epoch. A matured position's energy goes negative, and unlock refunds it
  exactly. The tests check energy only within the term. The ledger invariant
  (entry == sum over the positions) holds at every epoch.

## Model

| member | source | states |
|---|---|---|
| `Config.ToStartOfMonth` | locked-asset/energy-factory/tests/simple_lock_energy_test.rs:58 | the unlock epoch is the start of the 30-epoch month containing `now + option`: a multiple of 30, at most the epoch and less than 30 below it |
| `Scenarios.MonthStarts` | locked-asset/energy-factory/tests/simple_lock_energy_test.rs:525-535 | 361 and 371 both round to 360; 541 rounds to 540; 721 rounds to 720 |
| `Penalty.PenaltyAmount` | locked-asset/energy-factory/tests/simple_lock_energy_test.rs:152-155 | the penalty query succeeds exactly when new ≤ previous ≤ the longest option, and the penalty never exceeds the amount |
| `Penalty.ApplyBps` | locked-asset/energy-factory/tests/simple_lock_energy_test.rs:153 | `amount * bps / 10000` truncated is at most the amount and is zero at zero bps |
| `Penalty.FullUnlockRateFirstTier` | locked-asset/energy-factory/tests/simple_lock_energy_test.rs:319-321 | within the shortest option the early-exit rate is `floor(bps * remaining / duration)` |
| `Penalty.FullUnlockRateAtOption` | locked-asset/energy-factory/tests/simple_lock_energy_test.rs:152-155 | with exactly an option's duration left, the rate is that option's own bps |
| `Penalty.FullUnlockRate` | locked-asset/energy-factory/tests/simple_lock_energy_test.rs:319 | the full-exit rate for the remaining epochs lies between the rates of the two options around it, and never above the rate of the option it falls in |
| `Penalty.FullUnlockRateMonotone` | locked-asset/energy-factory/tests/simple_lock_energy_test.rs:319-322 | fewer remaining epochs never give a higher rate |
| `Penalty.EarlyExitPenaltyMonotone` | locked-asset/energy-factory/tests/simple_lock_energy_test.rs:319-322 | the early-exit penalty does not grow as maturity approaches, and it is zero at maturity |
| `Penalty.ReductionRate` | locked-asset/energy-factory/tests/simple_lock_energy_test.rs:367 | the reduction rate `(old - new) * 10000 / (10000 - new)` is never above the full-exit rate |
| `Penalty.ReductionRateFair` | locked-asset/energy-factory/tests/simple_lock_energy_test.rs:367-370 | the reduction rate is the largest rate after which the holder keeps at least what exiting now would leave, scaled to the shorter lock |
| `Penalty.ReductionCheaperThanExit` | locked-asset/energy-factory/tests/simple_lock_energy_test.rs:367-370 | shortening a lock never costs more than leaving it at the same moment |
| `Penalty.PenaltySplitFavoursHolder` | locked-asset/energy-factory/tests/simple_lock_energy_test.rs:193-245 | paying in parts costs at most what paying at once does, because truncation favours the holder |
| `Scenarios.FullUnlockRates` | locked-asset/energy-factory/tests/simple_lock_energy_test.rs:319 | with the test options: 4000 bps with 360 epochs left, 3922 bps with 353 left, 6000 bps with 720 left |
| `Scenarios.ReductionRateTwoYearsToOne` | locked-asset/energy-factory/tests/simple_lock_energy_test.rs:367 | going from 6000 bps to 4000 bps costs 3333 bps |
| `Scenarios.TestPenalties` | locked-asset/energy-factory/tests/simple_lock_energy_test.rs:152-155 | for any amount, the penalties are `amount*4000/10000`, `amount*3922/10000` and `amount*3333/10000` |
| `EnergyLedger.Deposit` | locked-asset/energy-factory/tests/simple_lock_energy_test.rs:525-535 | a lock adds its amount to the position with the same unlock epoch, or creates that position; other positions are unchanged |
| `EnergyLedger.Withdraw` | locked-asset/energy-factory/tests/simple_lock_energy_test.rs:198-233 | taking tokens out lowers only that position, which disappears exactly when emptied |
| `EnergyLedger.WeightedSingle` | locked-asset/energy-factory/tests/simple_lock_energy_test.rs:71-74 | a lone position has energy `amount * (unlock_epoch - now)` |
| `EnergyLedger.WeightedShift` | locked-asset/energy-factory/tests/simple_lock_energy_test.rs:76-83 | k epochs later the energy is lower by exactly k times the total locked amount |
| `EnergyLedger.DepositSums` | locked-asset/energy-factory/tests/simple_lock_energy_test.rs:112-114 | a lock adds exactly its own `amount * (unlock - now)` term to the energy, and its amount to the total |
| `EnergyLedger.WithdrawSums` | locked-asset/energy-factory/tests/simple_lock_energy_test.rs:168-170 | taking tokens out removes exactly their own term from the energy, and their amount from the total |
| `EnergyLedger.DepleteTo` | locked-asset/energy-factory/tests/simple_lock_energy_test.rs:76-83 | bringing an entry forward to now keeps it equal to the sums over the same positions, and its energy becomes the sum of `amount * (unlock - now)` |
| `EnergyLedger.AddLocked` | locked-asset/energy-factory/tests/simple_lock_energy_test.rs:112-114 | the lock update turns an entry that tracks the positions into one that tracks them with the new tokens deposited |
| `EnergyLedger.RemoveLocked` | locked-asset/energy-factory/tests/simple_lock_energy_test.rs:168-170 | the unlock update turns an entry that tracks the positions into one that tracks them with the tokens withdrawn |
| `EnergyLedger.DepleteKeepsTracking` | locked-asset/energy-factory/tests/simple_lock_energy_test.rs:76-83 | bringing a correct entry forward in time keeps it equal to the sum over the positions at the new epoch |
| `EnergyLedger.AddLockedKeepsTracking` | locked-asset/energy-factory/tests/simple_lock_energy_test.rs:71-74 | the lock delta keeps the entry equal to the sums over the enlarged positions |
| `EnergyLedger.RemoveLockedKeepsTracking` | locked-asset/energy-factory/tests/simple_lock_energy_test.rs:157-170 | the unlock delta keeps the entry equal to the sums over the reduced positions |
| `EnergyLedger.NoPositionsNoEnergy` | locked-asset/energy-factory/tests/simple_lock_energy_test.rs:168-170 | a user without positions has zero energy at every later epoch |
| `Config.WeekOf` | locked-asset/energy-factory/tests/simple_lock_energy_test.rs:311 | the week of an epoch is the 7-epoch block that contains it, so epochs 0 and 7 fall in consecutive weeks |
| `WeeklyFees.AccumulateFees` | locked-asset/energy-factory/tests/simple_lock_energy_test.rs:205-216 | a fee is held while its week is open; a fee of a later week sends the holding and itself to the collector; held plus forwarded equals before plus the fee |
| `WeeklyFees.FeesConserved` | locked-asset/energy-factory/tests/simple_lock_energy_test.rs:335-345 | across any series of fees, held plus forwarded equals everything charged |
| `WeeklyFees.OpenWeekForwardsNothing` | locked-asset/energy-factory/tests/simple_lock_energy_test.rs:252-264 | while the week is open nothing reaches the collector, and the holding is the sum of the fees |
| `WeeklyFees.CrossingForwardsOnce` | locked-asset/energy-factory/tests/simple_lock_energy_test.rs:311-345 | the first fee of a later week forwards the holding once; later fees of that week are held again |
| `WeeklyFees.SameWeekBatching` | locked-asset/energy-factory/tests/simple_lock_energy_test.rs:218-264 | two fees in an open week are held exactly as one fee of their sum |
| `Unbonding.StillUnbonding` | locked-asset/energy-factory/tests/simple_lock_energy_test.rs:235-238 | after a claim, only entries whose delay has not passed are left, and they were already waiting |
| `Unbonding.ClaimConserves` | locked-asset/energy-factory/tests/simple_lock_energy_test.rs:235-250 | a claim splits the pending tokens into paid and still waiting, with nothing lost or paid twice |
| `Unbonding.ClaimAfterDelayPaysAll` | locked-asset/energy-factory/tests/simple_lock_energy_test.rs:159-166 | once every delay has passed, a claim pays out everything and leaves nothing waiting |
| `EnergyFactory.RemainingEpochs` | locked-asset/energy-factory/tests/simple_lock_energy_test.rs:321 | the epochs left before unlock, so that now + left == unlock; zero once unlock has passed |
| `EnergyFactory.EntryInTracks` | locked-asset/energy-factory/tests/simple_lock_energy_test.rs:71-83 | brought forward to now, every user's entry equals the sum of `amount * (unlock - now)` over the user's positions |
| `EnergyFactory.LockKeepsUsersValid` | locked-asset/energy-factory/tests/simple_lock_energy_test.rs:85-114 | a lock keeps every user's entry consistent and adds exactly the new term |
| `EnergyFactory.UnlockKeepsUsersValid` | locked-asset/energy-factory/tests/simple_lock_energy_test.rs:121-130 | taking tokens out keeps every user's entry consistent and removes exactly their term |
| `EnergyFactory.RelockKeepsUsersValid` | locked-asset/energy-factory/tests/simple_lock_energy_test.rs:416-420 | moving tokens to another unlock epoch keeps every entry consistent; the energy changes by the two terms |
| `EnergyFactory.LockEngine.constructor` | locked-asset/energy-factory/tests/simple_lock_energy_test.rs:9-11 | a new engine has no positions, entries, nonces or fees, and its next nonce is 1 |
| `EnergyFactory.LockEngine.MintNonce` | locked-asset/energy-factory/tests/simple_lock_energy_test.rs:99-110 | an unlock epoch that already has a nonce reuses it; otherwise the next nonce is minted; nonces and epochs stay one-to-one |
| `EnergyFactory.LockEngine.ChargeFee` | locked-asset/energy-factory/tests/simple_lock_energy_test.rs:205-216 | a fee goes through the weekly holding; everything charged stays held or is forwarded |
| `EnergyFactory.LockEngine.GetUserEnergy` | locked-asset/energy-factory/tests/simple_lock_energy_test.rs:71-74 | the stored energy, read at now, equals the true sum over the user's positions |
| `EnergyFactory.LockEngine.Lock` | locked-asset/energy-factory/tests/simple_lock_energy_test.rs:13-69 | "Invalid payment token" for another token, then "Invalid lock choice" for a duration outside the table, with nothing changed; otherwise the amount joins the position at `to_start_of_month(now + option)` under that epoch's nonce, and the energy grows by exactly that term |
| `EnergyFactory.LockEngine.Unlock` | locked-asset/energy-factory/tests/simple_lock_energy_test.rs:116-130 | "Cannot unlock yet" before the unlock epoch, with nothing changed; from the unlock epoch on, the full amount is returned and the position shrinks by it |
| `EnergyFactory.LockEngine.UnlockEarly` | locked-asset/energy-factory/tests/simple_lock_energy_test.rs:152-170 | the penalty is the early-exit penalty for the remaining epochs; `amount - penalty` is queued for the unbond delay; the fee share goes to the weekly holding; the position and energy lose the exited tokens' term |
| `EnergyFactory.LockEngine.ReduceLockPeriod` | locked-asset/energy-factory/tests/simple_lock_energy_test.rs:367-420 | refused for an unknown nonce, a short balance, a duration outside the table or a target that is not shorter; otherwise `amount - penalty` is relocked until `to_start_of_month(now + option)`, the fee share is held, and the energy changes by the two terms |
| `EnergyFactory.LockEngine.ExtendLockPeriod` | locked-asset/energy-factory/tests/simple_lock_energy_test.rs:442-490 | "Invalid lock choice" outside the table; "must be longer" unless the new unlock epoch is strictly later; otherwise the same amount moves to the new unlock epoch and the energy grows by amount times the distance |
| `EnergyFactory.LockEngine.ClaimUnlockedTokens` | locked-asset/energy-factory/tests/simple_lock_energy_test.rs:159-166 | pays exactly the entries whose delay has passed, and keeps the others in order |
| `Scenarios.TryLock` | locked-asset/energy-factory/tests/simple_lock_energy_test.rs:13-31 | a fake token gives "Invalid payment token"; duration 42 gives "Invalid lock choice" |
| `Scenarios.LockOk` | locked-asset/energy-factory/tests/simple_lock_energy_test.rs:33-131 | the energy is `half * 359` after the lock and falls by `half * 180` over half a year; the second lock gets nonce 2, unlocking at 540, and adds `half * 359`; unlock is refused at 181 and pays `half` at 361 |
| `Scenarios.UnlockEarlyFull` | locked-asset/energy-factory/tests/simple_lock_energy_test.rs:133-171 | after the unbond delay the user claims `half - half*4000/10000`, and the energy is 0 |
| `Scenarios.MultipleEarlyUnlocksSameWeek` | locked-asset/energy-factory/tests/simple_lock_energy_test.rs:173-265 | three exits of a third: the claim pays three times `sixth - sixth*4000/10000`, the holding has three fee shares, and the collector has nothing |
| `Scenarios.MultipleWeeks` | locked-asset/energy-factory/tests/simple_lock_energy_test.rs:267-346 | exits at epochs 0 and 7 cost 4000 and 3922 bps; the holding is empty and the collector has both fee shares |
| `Scenarios.ReduceLockPeriodTwoYearsToOne` | locked-asset/energy-factory/tests/simple_lock_energy_test.rs:348-421 | nonce 2 holds `half - 3333 bps` until epoch 360; its energy is `360 * kept`; one fee share is held and the collector has nothing |
| `Scenarios.ExtendLockingPeriod` | locked-asset/energy-factory/tests/simple_lock_energy_test.rs:423-491 | three years is not a choice; two years gives nonce 2 unlocking at 720 with energy `719 * half`; extending back to one year is refused |
| `Scenarios.SameTokenNonce` | locked-asset/energy-factory/tests/simple_lock_energy_test.rs:493-536 | locks at epochs 1 and 11 both get nonce 1 unlocking at 360, and nonce 1 holds both halves |

## Left out

- Token mechanics are not modelled. This covers minting and burning locked
  tokens, sending them, and the user's base-token wallet. Operations return
  what would be sent, and positions are balances per unlock epoch.
- Locked tokens moving between users is not modelled: every position stays
  with the user who locked it.
- The `original_token_nonce` attribute is always 0 in the tests and is not
  modelled. The token identifier of a position is always the base token.
- The contract's fee position is not modelled as a locked token. The tests
  give it nonces and unlock epochs (360, 390, 720) that depend on the
  contract's code. The model keeps the fee holding as an amount per week.
- The split of a penalty between the held fees and the rest is a parameter,
  `feeShare`, applied to each penalty on its own. With `feeShare(p) == p / 2
  + 1`, the model meets lines 210, 303 and 401. The collector amount of line
  339, `(p1 + p2) / 2`, and the holding of line 258, `(3 * p) / 2 + 1`, are
  not sums of per-penalty shares of that form. All five assertions fit a
  contract that holds half of the week's summed penalties, plus one token
  while the holding is not empty, and forwards half of the summed
  penalties. The model does not adopt that rule, because the contract's
  code is not available.
- `Scenarios.MultipleEarlyUnlocksSameWeek` and `WeeklyFees.AccumulateFees`:
  the holding after three fees of `p` is `3 * feeShare(p)`. Line 258
  expects `(3 * p) / 2 + 1`, and no share that meets line 210 (`p / 2 + 1`)
  gives that. So the "+1" of line 258 is not modelled. The model keeps one
  share per penalty, and the "+1" counts once per penalty, not once per
  holding.
- The unbonding contract is modelled as a queue per user of entries (amount,
  claimable epoch) with a claim. The delay is a parameter.
- `EnergyFactory.LockEngine.UnlockEarly`: the early-exit rate is fixed by the
  tests only inside the shortest option and at each option's duration. Between
  longer options the model interpolates linearly between the two tiers' rates.
  With no time left it charges nothing.
- `EnergyFactory.LockEngine.ReduceLockPeriod`: the tests do not fix the error
  for a target that is not shorter. The model refuses it when the new duration
  is not below the epochs remaining.
- Clock reads, the block epoch and the caller address are parameters of each
  operation. Every operation of the engine, the claim included, requires an
  epoch no earlier than the engine's clock. A successful operation moves the
  clock to that epoch, and a refused one changes nothing. The energy query
  only reads.
- `EnergyFactory.LockEngine.Lock`: a payment of zero is accepted and leaves
  an empty position under a minted nonce. The host ledger does not carry
  zero-amount token transfers, so the tests never exercise this case.
- Amounts and energy are unbounded integers, like the big integers of the
  source. 64-bit epochs are unbounded too; their overflow cannot occur at the
  tested values.
