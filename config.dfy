/** Configuration of the energy factory: the epoch calendar, the lock option
    table, and the error and result types every operation returns. */
module Config {

  /** A month is 30 epochs: unlock epochs are rounded down to a month start. */
  const EPOCHS_IN_MONTH: nat := 30
  /** Penalty fees are batched per week of 7 epochs. */
  const EPOCHS_IN_WEEK: nat := 7
  const EPOCHS_IN_YEAR: nat := 360
  /** Penalty rates are expressed in basis points of this maximum. */
  const MAX_PENALTY_BPS: nat := 10000

  type TokenId = string
  type Address = string

  /** One row of the lock option table: a lock duration and the
      early-exit penalty charged at that full duration. */
  datatype LockOption = LockOption(lockEpochs: nat, penaltyBps: nat)

  /** A token transfer received with a call. */
  datatype Payment = Payment(token: TokenId, amount: nat)

  datatype Error =
    | InvalidPaymentToken     // "Invalid payment token"
    | InvalidLockChoice       // "Invalid lock choice"
    | UnknownPosition         // the caller holds no position with that nonce
    | InsufficientBalance     // more requested than the position holds
    | CannotUnlockYet         // "Cannot unlock yet"
    | NewPeriodNotLonger      // "New lock period must be longer than the current one"
    | NewPeriodNotShorter     // a reduction that does not shorten the lock
    | InvalidLockEpochs       // a penalty query outside the option table

  datatype Result<+T> = Success(value: T) | Failure(error: Error)

  datatype Option<+T> = None | Some(value: T)

  /** The option table is sorted by duration, longer locks never have a
      smaller penalty, and no penalty reaches 100%. */
  predicate ValidOptions(opts: seq<LockOption>) {
    && |opts| > 0
    && opts[0].lockEpochs > 0
    && (forall i, j :: 0 <= i < j < |opts| ==>
          opts[i].lockEpochs < opts[j].lockEpochs && opts[i].penaltyBps <= opts[j].penaltyBps)
    && (forall i :: 0 <= i < |opts| ==> opts[i].penaltyBps < MAX_PENALTY_BPS)
  }

  /** The longest lock the table offers. */
  function MaxLockEpochs(opts: seq<LockOption>): (m: nat)
    requires ValidOptions(opts)
    ensures forall i :: 0 <= i < |opts| ==> opts[i].lockEpochs <= m
    ensures exists i :: 0 <= i < |opts| && opts[i].lockEpochs == m
  {
    opts[|opts| - 1].lockEpochs
  }

  predicate IsLockOption(opts: seq<LockOption>, lockEpochs: nat) {
    exists i :: 0 <= i < |opts| && opts[i].lockEpochs == lockEpochs
  }

  /** The first epoch of the month that contains `epoch`. */
  function ToStartOfMonth(epoch: nat): (start: nat)
    ensures start <= epoch < start + EPOCHS_IN_MONTH
    ensures start % EPOCHS_IN_MONTH == 0
  {
    epoch - epoch % EPOCHS_IN_MONTH
  }

  /** The week an epoch falls in. */
  function WeekOf(epoch: nat): (week: nat)
    ensures week * EPOCHS_IN_WEEK <= epoch < (week + 1) * EPOCHS_IN_WEEK
  {
    epoch / EPOCHS_IN_WEEK
  }
}
