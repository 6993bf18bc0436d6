/** The energy factory driven through the scenarios of its test suite, with
    the option table used there: one year at 4000 bps, two years at 6000 bps.
    Each scenario starts from a fresh engine; the base token, the user's
    balance, the unbond delay and the fee share are left open. */
module Scenarios {
  import opened Config
  import opened Penalty
  import opened EnergyLedger
  import opened WeeklyFees
  import opened Unbonding
  import opened EnergyFactory

  const TestOptions: seq<LockOption> := [LockOption(EPOCHS_IN_YEAR, 4000), LockOption(2 * EPOCHS_IN_YEAR, 6000)]

  const USER: Address := "user"

  lemma TestOptionsValid()
    ensures ValidOptions(TestOptions) && MaxLockEpochs(TestOptions) == 720
    ensures IsLockOption(TestOptions, 360) && IsLockOption(TestOptions, 720)
    ensures !IsLockOption(TestOptions, 42) && !IsLockOption(TestOptions, 3 * EPOCHS_IN_YEAR)
  {
    assert TestOptions[0].lockEpochs == 360 && TestOptions[1].lockEpochs == 720;
  }

  /** A full year left costs the one-year rate; after a week (353 epochs
      left) the rate is 4000 * 353 / 360, truncated. */
  lemma FullUnlockRates()
    ensures ValidOptions(TestOptions)
    ensures FullUnlockRate(TestOptions, 360) == 4000
    ensures FullUnlockRate(TestOptions, 353) == 3922
    ensures FullUnlockRate(TestOptions, 720) == 6000
  {
    TestOptionsValid();
    FullUnlockRateAtOption(TestOptions, 0);
    FullUnlockRateAtOption(TestOptions, 1);
    FullUnlockRateFirstTier(TestOptions, 353);
  }

  /** Shortening two years into one: (6000 - 4000) * 10000 / (10000 - 4000). */
  lemma ReductionRateTwoYearsToOne()
    ensures ReductionRate(6000, 4000) == 3333
  {
    assert (6000 - 4000) * MAX_PENALTY_BPS / (MAX_PENALTY_BPS - 4000) == 3333;
  }

  /** The penalties the test suite expects, for any amount. */
  lemma TestPenalties(amount: nat)
    ensures ValidOptions(TestOptions)
    ensures PenaltyAmount(TestOptions, amount, 360, 0) == Success(amount * 4000 / 10000)
    ensures PenaltyAmount(TestOptions, amount, 353, 0) == Success(amount * 3922 / 10000)
    ensures PenaltyAmount(TestOptions, amount, 720, 360) == Success(amount * 3333 / 10000)
  {
    TestOptionsValid();
    FullUnlockRates();
    ReductionRateTwoYearsToOne();
  }

  /** The penalty of an exit with a year, or a year less a week, to go. */
  lemma ExitPenalty(penalty: nat, amount: nat, left: nat)
    requires PenaltyAmount(TestOptions, amount, left, 0) == Success(penalty)
    ensures left == 360 ==> penalty == amount * 4000 / 10000
    ensures left == 353 ==> penalty == amount * 3922 / 10000
  {
    TestPenalties(amount);
  }

  /** Unlock epochs are rounded down to the start of a 30-epoch month. */
  lemma MonthStarts()
    ensures ToStartOfMonth(360) == 360 && ToStartOfMonth(361) == 360 && ToStartOfMonth(371) == 360
    ensures ToStartOfMonth(541) == 540 && ToStartOfMonth(720) == 720 && ToStartOfMonth(721) == 720
  {
  }

  /** A lock with a foreign token or an unlisted duration is refused, and
      leaves the engine as it was. */
  method TryLock(base: TokenId, balance: nat, unbondEpochs: nat, feeShare: nat -> nat)
    returns (wrongToken: Result<LockedTokens>, wrongOption: Result<LockedTokens>)
    requires base != "FAKETOKEN-123456"
    ensures wrongToken == Failure(InvalidPaymentToken)
    ensures wrongOption == Failure(InvalidLockChoice)
  {
    TestOptionsValid();
    var engine := new LockEngine(base, TestOptions, unbondEpochs, feeShare, 0);
    wrongToken := engine.Lock(USER, Payment("FAKETOKEN-123456", 1000), 360, 0);
    wrongOption := engine.Lock(USER, Payment(base, balance), 42, 0);
    assert engine.positions == map[] && engine.energy == map[] && engine.nextNonce == 1;
  }

  /** Two locks whose unlock epochs round to the same month start share one
      nonce and one position holding both amounts. */
  method SameTokenNonce(base: TokenId, half: nat, unbondEpochs: nat, feeShare: nat -> nat)
    returns (first: Result<LockedTokens>, second: Result<LockedTokens>, balance: nat)
    ensures first == Success(LockedTokens(1, half, 360)) && second == Success(LockedTokens(1, half, 360))
    ensures balance == half + half
  {
    TestOptionsValid();
    MonthStarts();
    var engine := new LockEngine(base, TestOptions, unbondEpochs, feeShare, 1);
    first := engine.Lock(USER, Payment(base, half), 360, 1);
    assert first == Success(LockedTokens(1, half, 360));
    second := engine.Lock(USER, Payment(base, half), 360, 11);
    assert AmountAt(engine.HoldingsOf(USER), 360) == half + half;
    assert engine.unlockEpochOf[1] == 360;
    assert 360 in engine.HoldingsOf(USER);
    assert engine.Holds(USER, 1);
    balance := engine.BalanceOf(USER, 1);
  }

  /** Energy right after a lock is amount * (unlock epoch - now); it then
      falls by amount per elapsed epoch; a second lock with another unlock
      epoch gets the next nonce and adds its own term; a position cannot be
      unlocked before its unlock epoch and is paid out in full from it on. */
  method LockOk(base: TokenId, half: nat, unbondEpochs: nat, feeShare: nat -> nat)
    returns (energyAtLock: int, energyHalfYear: int, second: Result<LockedTokens>, energyBoth: int,
             tooEarly: Result<nat>, atMaturity: Result<nat>)
    ensures energyAtLock == half * (360 - 1)
    ensures energyHalfYear == energyAtLock - half * 180
    ensures second == Success(LockedTokens(2, half, 540))
    ensures energyBoth == energyHalfYear + half * (540 - 181)
    ensures tooEarly == Failure(CannotUnlockYet)
    ensures atMaturity == Success(half)
  {
    TestOptionsValid();
    MonthStarts();
    var engine := new LockEngine(base, TestOptions, unbondEpochs, feeShare, 1);
    var r := engine.Lock(USER, Payment(base, half), 360, 1);
    assert r == Success(LockedTokens(1, half, 360));
    ghost var first := engine.HoldingsOf(USER);
    assert first == Deposit(map[], 360, half);
    DepositSums(map[], 360, half, 1);
    energyAtLock := engine.GetUserEnergy(USER, 1);

    // half a year later
    energyHalfYear := engine.GetUserEnergy(USER, 181);
    WeightedShift(first, 1, 180);

    second := engine.Lock(USER, Payment(base, half), 360, 181);
    ghost var both := engine.HoldingsOf(USER);
    assert both == Deposit(first, 540, half);
    energyBoth := engine.GetUserEnergy(USER, 181);

    assert engine.unlockEpochOf[1] == 360 && AmountAt(both, 360) == half;
    assert engine.Holds(USER, 1) && engine.BalanceOf(USER, 1) == half;
    tooEarly := engine.Unlock(USER, 1, half, 181);
    atMaturity := engine.Unlock(USER, 1, half, 1 + 360);
  }

  /** The engine right after its only lock: USER's `amount` tokens, locked
      at `now` until `unlockEpoch` under nonce 1, and nothing else. */
  ghost predicate LockedOnce(engine: LockEngine, now: nat, amount: nat, unlockEpoch: nat)
    reads engine
  {
    && engine.Valid() && engine.lockOptions == TestOptions && engine.currentEpoch == now
    && engine.nonceOf == map[unlockEpoch := 1] && engine.unlockEpochOf == map[1 := unlockEpoch]
    && engine.nextNonce == 2
    && engine.positions == map[USER := map[unlockEpoch := amount]]
    && engine.unbonding == map[]
    && engine.fees == FeeHolding(WeekOf(now), 0) && engine.sentToCollector == 0
  }

  /** A fresh engine in which USER has locked `amount` for `lockEpochs` at `now`. */
  method FreshLock(base: TokenId, amount: nat, unbondEpochs: nat, feeShare: nat -> nat, now: nat, lockEpochs: nat)
    returns (engine: LockEngine)
    requires IsLockOption(TestOptions, lockEpochs)
    ensures fresh(engine)
    ensures LockedOnce(engine, now, amount, ToStartOfMonth(now + lockEpochs))
    ensures engine.baseAssetToken == base && engine.unbondEpochs == unbondEpochs && engine.feeShare == feeShare
  {
    TestOptionsValid();
    var unlockEpoch := ToStartOfMonth(now + lockEpochs);
    engine := new LockEngine(base, TestOptions, unbondEpochs, feeShare, now);
    var r := engine.Lock(USER, Payment(base, amount), lockEpochs, now);
    assert r.Success?;
    assert Deposit(map[], unlockEpoch, amount) == map[unlockEpoch := amount];
    assert engine.positions == map[USER := map[unlockEpoch := amount]];
    assert engine.nonceOf == map[unlockEpoch := 1] && engine.unlockEpochOf == map[1 := unlockEpoch];
  }

  /** Right after a one-year lock taken in the first month, nothing has been
      exited yet. */
  lemma LockedOnceExiting(engine: LockEngine, now: nat, amount: nat)
    requires LockedOnce(engine, now, amount, 360) && amount > 0
    ensures Exiting(engine, amount, [], FeeHolding(WeekOf(now), 0), 0)
  {
    assert engine.HoldingsOf(USER) == map[360 := amount];
  }

  /** USER's tokens of nonce 1, which unlock at epoch 360: `left` of them
      still locked, the early exits so far queued as `queue`, the fees held
      as `fees` and `sent` forwarded to the collector. */
  ghost predicate Exiting(engine: LockEngine, left: nat, queue: seq<UnbondEntry>, fees: FeeHolding, sent: nat)
    reads engine
  {
    && engine.Valid() && engine.lockOptions == TestOptions
    && engine.nonceOf == map[360 := 1] && engine.unlockEpochOf == map[1 := 360]
    && engine.HoldingsOf(USER) == (if left == 0 then map[] else map[360 := left])
    && engine.UnbondingOf(USER) == queue
    && engine.fees == fees && engine.sentToCollector == sent
  }

  /** Withdrawing from a lone position leaves it smaller, or none at all. */
  lemma WithdrawFromSingle(unlockEpoch: nat, left: nat, amount: nat)
    requires amount <= left
    ensures Withdraw(map[unlockEpoch := left], unlockEpoch, amount)
         == if left - amount == 0 then map[] else map[unlockEpoch := left - amount]
  {
  }

  /** One early exit of `amount` of those tokens at `now`, and the state
      it leaves. */
  method ExitStep(engine: LockEngine, left: nat, queue: seq<UnbondEntry>, fees: FeeHolding, sent: nat,
                  amount: nat, now: nat)
    returns (exit: EarlyExit, left': nat, queue': seq<UnbondEntry>, fees': FeeHolding, sent': nat)
    requires Exiting(engine, left, queue, fees, sent) && engine.currentEpoch <= now < 360
    requires 0 < amount <= left
    modifies engine
    ensures PenaltyAmount(TestOptions, amount, 360 - now, 0) == Success(exit.penalty)
    ensures exit.received == amount - exit.penalty
    ensures left' == left - amount
    ensures queue' == queue + [UnbondEntry(exit.received, now + engine.unbondEpochs)]
    ensures fees' == AccumulateFees(fees, engine.feeShare(exit.penalty), WeekOf(now)).holding
    ensures sent' == sent + AccumulateFees(fees, engine.feeShare(exit.penalty), WeekOf(now)).toCollector
    ensures engine.currentEpoch == now
    ensures Exiting(engine, left', queue', fees', sent')
  {
    assert engine.Holds(USER, 1) && engine.BalanceOf(USER, 1) == left;
    assert RemainingEpochs(360, now) == 360 - now;
    var r := engine.UnlockEarly(USER, 1, amount, now);
    exit := r.value;
    WithdrawFromSingle(360, left, amount);
    var step := AccumulateFees(fees, engine.feeShare(exit.penalty), WeekOf(now));
    left', queue', fees', sent' := left - amount, queue + [UnbondEntry(exit.received, now + engine.unbondEpochs)],
                                   step.holding, sent + step.toCollector;
  }

  /** A full early exit one year before maturity costs 4000 bps; the rest is
      paid out after the unbond delay and no energy is left. */
  method UnlockEarlyFull(base: TokenId, half: nat, unbondEpochs: nat, feeShare: nat -> nat)
    returns (claimed: nat, energy: int)
    requires half > 0
    ensures claimed == half - half * 4000 / 10000
    ensures energy == 0
  {
    TestOptionsValid();
    MonthStarts();
    var engine := FreshLock(base, half, unbondEpochs, feeShare, 0, 360);
    LockedOnceExiting(engine, 0, half);
    var exit, left, queue, fees, sent := ExitStep(engine, half, [], FeeHolding(0, 0), 0, half, 0);
    assert engine.HoldingsOf(USER) == map[];
    energy := engine.GetUserEnergy(USER, unbondEpochs);

    ClaimOneMore([], UnbondEntry(exit.received, 0 + engine.unbondEpochs), unbondEpochs);
    claimed := engine.ClaimUnlockedTokens(USER, unbondEpochs);
    ExitPenalty(exit.penalty, half, 360 - 0);
  }

  /** Claiming after one more entry adds that entry when it is due. */
  lemma ClaimOneMore(entries: seq<UnbondEntry>, e: UnbondEntry, now: nat)
    ensures ClaimableAmount(entries + [e], now)
         == ClaimableAmount(entries, now) + (if e.claimableEpoch <= now then e.amount else 0)
  {
    assert (entries + [e])[..|entries|] == entries;
  }

  /** Three fees of week 0 stay in the holding. */
  lemma FeesOfOneWeek(fee: nat)
    ensures var first := AccumulateFees(FeeHolding(0, 0), fee, WeekOf(0));
            var second := AccumulateFees(first.holding, fee, WeekOf(0));
            && first.toCollector == 0 && second.toCollector == 0
            && AccumulateFees(second.holding, fee, WeekOf(0)) == FeeStep(FeeHolding(0, 3 * fee), 0)
  {
  }

  /** A fee of week 0 is held; one of week 1 forwards both. */
  lemma FeesOfTwoWeeks(fee1: nat, fee2: nat)
    ensures AccumulateFees(FeeHolding(0, 0), fee1, WeekOf(0)) == FeeStep(FeeHolding(0, fee1), 0)
    ensures AccumulateFees(FeeHolding(0, fee1), fee2, WeekOf(7)) == FeeStep(FeeHolding(1, 0), fee1 + fee2)
  {
  }

  /** USER locks `half` for a year at epoch 0 and exits a third of it,
      three times over, in the same epoch. */
  method ExitThirdsInWeekZero(base: TokenId, half: nat, unbondEpochs: nat, feeShare: nat -> nat)
    returns (engine: LockEngine, exit: EarlyExit)
    requires half >= 3
    ensures fresh(engine) && engine.Valid() && engine.currentEpoch == 0
    ensures PenaltyAmount(TestOptions, half / 3, 360 - 0, 0) == Success(exit.penalty)
    ensures exit.received == half / 3 - exit.penalty
    ensures engine.fees == FeeHolding(0, 3 * feeShare(exit.penalty)) && engine.sentToCollector == 0
    ensures ClaimableAmount(engine.UnbondingOf(USER), unbondEpochs) == 3 * exit.received
  {
    var sixth := half / 3;
    TestOptionsValid();
    MonthStarts();
    engine := FreshLock(base, half, unbondEpochs, feeShare, 0, 360);
    LockedOnceExiting(engine, 0, half);
    var left1, queue1, fees1, sent1, second, left2, queue2, fees2, sent2, third, left3, queue3, fees3, sent3;
    exit, left1, queue1, fees1, sent1 := ExitStep(engine, half, [], FeeHolding(0, 0), 0, sixth, 0);
    second, left2, queue2, fees2, sent2 := ExitStep(engine, left1, queue1, fees1, sent1, sixth, 0);
    third, left3, queue3, fees3, sent3 := ExitStep(engine, left2, queue2, fees2, sent2, sixth, 0);
    assert second == exit && third == exit;
    FeesOfOneWeek(feeShare(exit.penalty));
    ClaimOneMore([], UnbondEntry(exit.received, 0 + engine.unbondEpochs), unbondEpochs);
    ClaimOneMore(queue1, UnbondEntry(second.received, 0 + engine.unbondEpochs), unbondEpochs);
    ClaimOneMore(queue2, UnbondEntry(third.received, 0 + engine.unbondEpochs), unbondEpochs);
  }

  /** Three early exits of a sixth each in the same week: every one costs
      4000 bps, their fee shares pile up in the week's holding and nothing
      reaches the collector; the claim pays out the three remainders. */
  method MultipleEarlyUnlocksSameWeek(base: TokenId, half: nat, unbondEpochs: nat, feeShare: nat -> nat)
    returns (claimed: nat, held: nat, sent: nat)
    requires half >= 3
    ensures claimed == 3 * (half / 3 - half / 3 * 4000 / 10000)
    ensures held == 3 * feeShare(half / 3 * 4000 / 10000)
    ensures sent == 0
  {
    var engine, exit := ExitThirdsInWeekZero(base, half, unbondEpochs, feeShare);
    claimed := engine.ClaimUnlockedTokens(USER, unbondEpochs);
    held, sent := engine.fees.held, engine.sentToCollector;
    ExitPenalty(exit.penalty, half / 3, 360 - 0);
  }

  /** Early exits of a quarter at epoch 0 and at epoch 7: the second costs
      3922 bps, being a week closer to maturity, and being the first fee of
      a new week it forwards both fee shares to the collector. */
  method MultipleWeeks(base: TokenId, half: nat, unbondEpochs: nat, feeShare: nat -> nat)
    returns (claimed: nat, held: nat, sent: nat)
    requires half >= 2
    ensures var quarter := half / 2;
      && claimed == (quarter - quarter * 4000 / 10000) + (quarter - quarter * 3922 / 10000)
      && held == 0
      && sent == feeShare(quarter * 4000 / 10000) + feeShare(quarter * 3922 / 10000)
  {
    var quarter := half / 2;
    TestOptionsValid();
    MonthStarts();
    var engine := FreshLock(base, half, unbondEpochs, feeShare, 0, 360);
    LockedOnceExiting(engine, 0, half);
    var first, left, queue, fees, forwarded := ExitStep(engine, half, [], FeeHolding(0, 0), 0, quarter, 0);
    var second;
    second, left, queue, fees, forwarded := ExitStep(engine, left, queue, fees, forwarded, quarter, 7);
    FeesOfTwoWeeks(feeShare(first.penalty), feeShare(second.penalty));
    held, sent := engine.fees.held, engine.sentToCollector;

    var entry := UnbondEntry(first.received, 0 + unbondEpochs);
    ClaimOneMore([], entry, 7 + unbondEpochs);
    ClaimOneMore([] + [entry], UnbondEntry(second.received, 7 + unbondEpochs), 7 + unbondEpochs);
    claimed := engine.ClaimUnlockedTokens(USER, 7 + unbondEpochs);
    ExitPenalty(first.penalty, quarter, 360 - 0);
    ExitPenalty(second.penalty, quarter, 360 - 7);
  }

  /** The energy of USER at `now` when all of USER's tokens unlock at
      `unlockEpoch`: the amount times the epochs left. */
  method SingleEnergy(engine: LockEngine, unlockEpoch: nat, amount: nat, now: nat) returns (energy: int)
    requires engine.Valid() && engine.currentEpoch <= now
    requires engine.HoldingsOf(USER) == map[unlockEpoch := amount]
    ensures energy == (unlockEpoch - now) * amount
  {
    energy := engine.GetUserEnergy(USER, now);
    WeightedSingle(unlockEpoch, amount, now);
  }

  /** Shortening USER's lone two-year position, locked at `now`, to one
      year at `now`. */
  method ReduceStep(engine: LockEngine, amount: nat, now: nat) returns (r: Result<LockedTokens>)
    requires LockedOnce(engine, now, amount, 720) && now == 0
    modifies engine
    ensures var penalty := ApplyBps(amount, 3333);
      && r == Success(LockedTokens(2, amount - penalty, 360))
      && engine.HoldingsOf(USER) == map[360 := amount - penalty]
      && engine.fees == FeeHolding(0, engine.feeShare(penalty)) && engine.sentToCollector == 0
    ensures engine.Valid() && engine.currentEpoch == now
  {
    assert engine.Holds(USER, 1) && engine.BalanceOf(USER, 1) == amount;
    assert RemainingEpochs(720, now) == 720;
    TestOptionsValid();
    r := engine.ReduceLockPeriod(USER, 1, amount, 360, now);
    WithdrawFromSingle(720, amount, amount);
    TestPenalties(amount);
  }

  /** Shortening a two-year lock taken at epoch 0 to one year: the penalty
      is 3333 bps of the amount, the rest is relocked under a new nonce until
      epoch 360, the fee share is held for the week and nothing reaches the
      collector; the energy left is the kept tokens' own term. */
  method ReduceLockPeriodTwoYearsToOne(base: TokenId, half: nat, unbondEpochs: nat, feeShare: nat -> nat)
    returns (r: Result<LockedTokens>, energy: int, held: nat, sent: nat)
    ensures r == Success(LockedTokens(2, half - ApplyBps(half, 3333), 360))
    ensures energy == (360 - 0) * (half - ApplyBps(half, 3333))
    ensures held == feeShare(ApplyBps(half, 3333)) && sent == 0
  {
    TestOptionsValid();
    MonthStarts();
    var engine := FreshLock(base, half, unbondEpochs, feeShare, 0, 720);
    assert ToStartOfMonth(0 + 720) == 720;
    r := ReduceStep(engine, half, 0);
    var kept := half - ApplyBps(half, 3333);
    held, sent := engine.fees.held, engine.sentToCollector;
    energy := SingleEnergy(engine, 360, kept, 0);
  }

  /** Extending USER's lone one-year position, locked at epoch 1, to three
      years at epoch 1: not an option, so nothing changes. */
  method ExtendThreeYearsStep(engine: LockEngine, amount: nat) returns (r: Result<LockedTokens>)
    requires LockedOnce(engine, 1, amount, 360)
    modifies engine
    ensures r == Failure(InvalidLockChoice) && LockedOnce(engine, 1, amount, 360)
  {
    TestOptionsValid();
    assert engine.Holds(USER, 1) && engine.BalanceOf(USER, 1) == amount;
    r := engine.ExtendLockPeriod(USER, 1, amount, 3 * EPOCHS_IN_YEAR, 1);
  }

  /** Extending USER's lone one-year position, locked at epoch 1, to two
      years at epoch 1, and the energy it then carries. */
  method ExtendTwoYearsStep(engine: LockEngine, amount: nat) returns (r: Result<LockedTokens>, energy: int)
    requires LockedOnce(engine, 1, amount, 360)
    modifies engine
    ensures r == Success(LockedTokens(2, amount, 720))
    ensures energy == (720 - 1) * amount
    ensures engine.Valid() && engine.lockOptions == TestOptions && engine.currentEpoch == 1
    ensures engine.unlockEpochOf == map[1 := 360, 2 := 720] && engine.HoldingsOf(USER) == map[720 := amount]
  {
    TestOptionsValid();
    assert engine.Holds(USER, 1) && engine.BalanceOf(USER, 1) == amount;
    r := engine.ExtendLockPeriod(USER, 1, amount, 720, 1);
    WithdrawFromSingle(360, amount, amount);
    assert engine.HoldingsOf(USER) == map[720 := amount];
    energy := SingleEnergy(engine, 720, amount, 1);
  }

  /** Extending USER's position of nonce 2 back to one year at epoch 1. */
  method ExtendBackStep(engine: LockEngine, amount: nat) returns (r: Result<LockedTokens>)
    requires engine.Valid() && engine.lockOptions == TestOptions && engine.currentEpoch == 1
    requires engine.unlockEpochOf == map[1 := 360, 2 := 720] && engine.HoldingsOf(USER) == map[720 := amount]
    modifies engine
    ensures r == Failure(NewPeriodNotLonger)
  {
    TestOptionsValid();
    MonthStarts();
    assert engine.Holds(USER, 2) && engine.BalanceOf(USER, 2) == amount;
    r := engine.ExtendLockPeriod(USER, 2, amount, 360, 1);
  }

  /** Extending a one-year lock taken at epoch 1: three years is not an
      option; two years moves the tokens, unchanged in amount, to a new nonce
      unlocking at 720, with energy amount * (720 - 1); going back to one year
      is refused as not longer. */
  method ExtendLockingPeriod(base: TokenId, half: nat, unbondEpochs: nat, feeShare: nat -> nat)
    returns (threeYears: Result<LockedTokens>, twoYears: Result<LockedTokens>, energy: int,
             backToOne: Result<LockedTokens>)
    ensures threeYears == Failure(InvalidLockChoice)
    ensures twoYears == Success(LockedTokens(2, half, 720))
    ensures energy == (720 - 1) * half
    ensures backToOne == Failure(NewPeriodNotLonger)
  {
    TestOptionsValid();
    MonthStarts();
    var engine := FreshLock(base, half, unbondEpochs, feeShare, 1, 360);
    threeYears := ExtendThreeYearsStep(engine, half);
    twoYears, energy := ExtendTwoYearsStep(engine, half);
    backToOne := ExtendBackStep(engine, half);
  }
}
