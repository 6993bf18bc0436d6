/** The penalty calculator: what a holder forfeits for leaving a lock early
    (full early exit) or for shortening it (lock period reduction). */
module Penalty {
  import opened Config
  import opened Arith

  /** The tier `remaining` epochs fall in: the first option at least as long. */
  function TierIndex(opts: seq<LockOption>, remaining: nat): (i: nat)
    requires ValidOptions(opts) && remaining <= MaxLockEpochs(opts)
    ensures i < |opts| && remaining <= opts[i].lockEpochs
    ensures i > 0 ==> opts[i - 1].lockEpochs < remaining
  {
    TierFrom(opts, remaining, 0)
  }

  /** The option scan behind TierIndex, starting at option `k`. */
  function TierFrom(opts: seq<LockOption>, remaining: nat, k: nat): (i: nat)
    requires ValidOptions(opts) && remaining <= MaxLockEpochs(opts)
    requires k < |opts| && (k > 0 ==> opts[k - 1].lockEpochs < remaining)
    ensures k <= i < |opts| && remaining <= opts[i].lockEpochs
    ensures i > 0 ==> opts[i - 1].lockEpochs < remaining
    decreases |opts| - k
  {
    if remaining <= opts[k].lockEpochs then k else TierFrom(opts, remaining, k + 1)
  }

  /** The truncated point at `x` of the line from `lo` (at 0) to `hi` (at `span`). */
  function Interpolate(lo: nat, hi: nat, x: nat, span: nat): (r: nat)
    requires lo <= hi && 0 < span && x <= span
    ensures lo <= r <= hi
    ensures x == 0 ==> r == lo
    ensures x == span ==> r == hi
  {
    ScaleAtMost(hi - lo, x, span);
    MulDivCancel(hi - lo, span);
    lo + (hi - lo) * x / span
  }

  lemma InterpolateMonotone(lo: nat, hi: nat, x1: nat, x2: nat, span: nat)
    requires lo <= hi && 0 < span && x1 <= x2 <= span
    ensures Interpolate(lo, hi, x1, span) <= Interpolate(lo, hi, x2, span)
  {
    MulMonotone(hi - lo, x1, x2);
    DivMonotone((hi - lo) * x1, (hi - lo) * x2, span);
  }

  /** The basis-point rate of a full early exit with `remaining` epochs left:
      zero at maturity, the option's own rate at each option's duration, and
      linear (truncated) in between. */
  function FullUnlockRate(opts: seq<LockOption>, remaining: nat): (bps: nat)
    requires ValidOptions(opts) && remaining <= MaxLockEpochs(opts)
    ensures bps <= opts[TierIndex(opts, remaining)].penaltyBps < MAX_PENALTY_BPS
    ensures TierIndex(opts, remaining) > 0 ==> opts[TierIndex(opts, remaining) - 1].penaltyBps <= bps
  {
    var i := TierIndex(opts, remaining);
    if i == 0 then
      Interpolate(0, opts[0].penaltyBps, remaining, opts[0].lockEpochs)
    else
      Interpolate(opts[i - 1].penaltyBps, opts[i].penaltyBps,
                  remaining - opts[i - 1].lockEpochs, opts[i].lockEpochs - opts[i - 1].lockEpochs)
  }

  lemma TierIndexAtOption(opts: seq<LockOption>, k: nat)
    requires ValidOptions(opts) && k < |opts|
    ensures TierIndex(opts, opts[k].lockEpochs) == k
  {
  }

  /** At exactly an option's duration the rate is that option's penalty. */
  lemma {:induction false} FullUnlockRateAtOption(opts: seq<LockOption>, k: nat)
    requires ValidOptions(opts) && k < |opts|
    ensures FullUnlockRate(opts, opts[k].lockEpochs) == opts[k].penaltyBps
  {
    TierIndexAtOption(opts, k);
  }

  /** Nothing is charged once the lock has matured. */
  lemma FullUnlockRateAtMaturity(opts: seq<LockOption>)
    requires ValidOptions(opts)
    ensures FullUnlockRate(opts, 0) == 0
  {
  }

  /** Within the shortest option, the rate is that option's penalty scaled by
      remaining / duration. */
  lemma FullUnlockRateFirstTier(opts: seq<LockOption>, remaining: nat)
    requires ValidOptions(opts) && remaining <= opts[0].lockEpochs
    ensures FullUnlockRate(opts, remaining) == opts[0].penaltyBps * remaining / opts[0].lockEpochs
  {
    assert TierIndex(opts, remaining) == 0;
  }

  /** Fewer remaining epochs never cost a higher rate. */
  lemma FullUnlockRateMonotone(opts: seq<LockOption>, r1: nat, r2: nat)
    requires ValidOptions(opts) && r1 <= r2 <= MaxLockEpochs(opts)
    ensures FullUnlockRate(opts, r1) <= FullUnlockRate(opts, r2)
  {
    var i1, i2 := TierIndex(opts, r1), TierIndex(opts, r2);
    if i1 == i2 {
      if i1 == 0 {
        InterpolateMonotone(0, opts[0].penaltyBps, r1, r2, opts[0].lockEpochs);
      } else {
        var prev := opts[i1 - 1];
        InterpolateMonotone(prev.penaltyBps, opts[i1].penaltyBps, r1 - prev.lockEpochs,
                            r2 - prev.lockEpochs, opts[i1].lockEpochs - prev.lockEpochs);
      }
    } else {
      assert opts[i1].penaltyBps <= opts[i2 - 1].penaltyBps;
    }
  }

  /** The rate charged to shorten a lock whose full-exit rate is `oldBps` into
      one whose full-exit rate is `newBps`; never more than the full-exit rate. */
  function ReductionRate(oldBps: nat, newBps: nat): (bps: nat)
    requires newBps <= oldBps < MAX_PENALTY_BPS
    ensures bps <= oldBps
  {
    ReductionQuotientAtMost(oldBps, newBps);
    var q := (oldBps - newBps) * MAX_PENALTY_BPS / (MAX_PENALTY_BPS - newBps);
    q
  }

  lemma ReductionQuotientAtMost(oldBps: nat, newBps: nat)
    requires newBps <= oldBps < MAX_PENALTY_BPS
    ensures 0 <= (oldBps - newBps) * MAX_PENALTY_BPS / (MAX_PENALTY_BPS - newBps) <= oldBps
  {
    var m, s := MAX_PENALTY_BPS, MAX_PENALTY_BPS - newBps;
    var x := (oldBps - newBps) * m;
    DivBounds(x, s);
    assert s * oldBps == m * oldBps - newBps * oldBps;
    MulMonotone(newBps, oldBps, m);
    Distribute(s, oldBps, 1);
    MulCancelLess(s, x / s, oldBps + 1);
  }

  /** Shortening and then exiting from the shorter lock leaves the holder at
      least what exiting now would, and the reduction rate is the largest rate
      with that property. */
  lemma ReductionRateFair(oldBps: nat, newBps: nat)
    requires newBps <= oldBps < MAX_PENALTY_BPS
    ensures var bps := ReductionRate(oldBps, newBps);
      && (MAX_PENALTY_BPS - bps) * (MAX_PENALTY_BPS - newBps) >= (MAX_PENALTY_BPS - oldBps) * MAX_PENALTY_BPS
      && (MAX_PENALTY_BPS - bps - 1) * (MAX_PENALTY_BPS - newBps) < (MAX_PENALTY_BPS - oldBps) * MAX_PENALTY_BPS
  {
    var m, s := MAX_PENALTY_BPS, MAX_PENALTY_BPS - newBps;
    var x := (oldBps - newBps) * m;
    var q := ReductionRate(oldBps, newBps);
    assert q == x / s;
    DivBounds(x, s);
    assert (m - q) * s == m * s - s * q;
    assert (m - oldBps) * m == m * s - x;
    assert (m - q - 1) * s == m * s - s * q - s;
  }

  /** `bps` basis points of `amount`, truncated. */
  function ApplyBps(amount: nat, bps: nat): (p: nat)
    requires bps <= MAX_PENALTY_BPS
    ensures p <= amount
    ensures bps == 0 ==> p == 0
  {
    ScaleAtMost(amount, bps, MAX_PENALTY_BPS);
    amount * bps / MAX_PENALTY_BPS
  }

  /** The penalty for moving `amount` from a lock with `prevLockEpochs` left to
      one with `newLockEpochs` left; `newLockEpochs == 0` is a full early exit. */
  function PenaltyAmount(opts: seq<LockOption>, amount: nat, prevLockEpochs: nat, newLockEpochs: nat): (r: Result<nat>)
    requires ValidOptions(opts)
    ensures r.Success? <==> newLockEpochs <= prevLockEpochs <= MaxLockEpochs(opts)
    ensures r.Success? ==> r.value <= amount
  {
    if prevLockEpochs > MaxLockEpochs(opts) || newLockEpochs > prevLockEpochs then
      Failure(InvalidLockEpochs)
    else
      var oldBps := FullUnlockRate(opts, prevLockEpochs);
      if newLockEpochs == 0 then
        Success(ApplyBps(amount, oldBps))
      else
        FullUnlockRateMonotone(opts, newLockEpochs, prevLockEpochs);
        Success(ApplyBps(amount, ReductionRate(oldBps, FullUnlockRate(opts, newLockEpochs))))
  }

  lemma ApplyBpsMonotone(amount: nat, b1: nat, b2: nat)
    requires b1 <= b2 <= MAX_PENALTY_BPS
    ensures ApplyBps(amount, b1) <= ApplyBps(amount, b2)
  {
    MulMonotone(amount, b1, b2);
    DivMonotone(amount * b1, amount * b2, MAX_PENALTY_BPS);
  }

  /** The early-exit penalty shrinks as maturity approaches and is zero at it. */
  lemma EarlyExitPenaltyMonotone(opts: seq<LockOption>, amount: nat, r1: nat, r2: nat)
    requires ValidOptions(opts) && r1 <= r2 <= MaxLockEpochs(opts)
    ensures PenaltyAmount(opts, amount, r1, 0).value <= PenaltyAmount(opts, amount, r2, 0).value
    ensures PenaltyAmount(opts, amount, 0, 0) == Success(0)
  {
    FullUnlockRateMonotone(opts, r1, r2);
    ApplyBpsMonotone(amount, FullUnlockRate(opts, r1), FullUnlockRate(opts, r2));
  }

  /** Shortening a lock never costs more than leaving it altogether. */
  lemma ReductionCheaperThanExit(opts: seq<LockOption>, amount: nat, prevLockEpochs: nat, newLockEpochs: nat)
    requires ValidOptions(opts) && newLockEpochs <= prevLockEpochs <= MaxLockEpochs(opts)
    ensures PenaltyAmount(opts, amount, prevLockEpochs, newLockEpochs).value
         <= PenaltyAmount(opts, amount, prevLockEpochs, 0).value
  {
    if newLockEpochs > 0 {
      FullUnlockRateMonotone(opts, newLockEpochs, prevLockEpochs);
      var oldBps := FullUnlockRate(opts, prevLockEpochs);
      ApplyBpsMonotone(amount, ReductionRate(oldBps, FullUnlockRate(opts, newLockEpochs)), oldBps);
    }
  }

  /** Paying the penalty in two parts never costs more than paying it at once:
      truncation favours the holder. */
  lemma PenaltySplitFavoursHolder(opts: seq<LockOption>, a1: nat, a2: nat, prevLockEpochs: nat, newLockEpochs: nat)
    requires ValidOptions(opts) && newLockEpochs <= prevLockEpochs <= MaxLockEpochs(opts)
    ensures PenaltyAmount(opts, a1, prevLockEpochs, newLockEpochs).value
          + PenaltyAmount(opts, a2, prevLockEpochs, newLockEpochs).value
         <= PenaltyAmount(opts, a1 + a2, prevLockEpochs, newLockEpochs).value
  {
    FullUnlockRateMonotone(opts, newLockEpochs, prevLockEpochs);
    var oldBps := FullUnlockRate(opts, prevLockEpochs);
    var bps := if newLockEpochs == 0 then oldBps else ReductionRate(oldBps, FullUnlockRate(opts, newLockEpochs));
    ApplyBpsSuperadditive(a1, a2, bps);
  }

  lemma ApplyBpsSuperadditive(a1: nat, a2: nat, bps: nat)
    requires bps <= MAX_PENALTY_BPS
    ensures ApplyBps(a1, bps) + ApplyBps(a2, bps) <= ApplyBps(a1 + a2, bps)
  {
    Distribute(bps, a1, a2);
    assert (a1 + a2) * bps == a1 * bps + a2 * bps;
    DivSuperadditive(a1 * bps, a2 * bps, MAX_PENALTY_BPS);
  }
}
