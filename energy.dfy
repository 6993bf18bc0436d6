/** The energy ledger: a user's energy is the sum, over the user's lock
    positions, of amount * (unlock epoch - now). It is stored incrementally as
    an entry (amount, last update epoch, total locked tokens) and never
    recomputed from the positions; the lemmas here show that the incremental
    updates keep the entry equal to that sum. */
module EnergyLedger {

  /** A user's lock positions: unlock epoch -> locked amount. Positions that
      share an unlock epoch are one position. */
  type Holdings = map<nat, nat>

  function AmountAt(h: Holdings, unlockEpoch: nat): nat {
    if unlockEpoch in h then h[unlockEpoch] else 0
  }

  /** Adds `amount` to the position at `unlockEpoch`, creating it if absent. */
  function Deposit(h: Holdings, unlockEpoch: nat, amount: nat): (h': Holdings)
    ensures unlockEpoch in h'
    ensures h'.Keys == h.Keys + {unlockEpoch}
    ensures forall e :: AmountAt(h', e) == AmountAt(h, e) + (if e == unlockEpoch then amount else 0)
  {
    h[unlockEpoch := AmountAt(h, unlockEpoch) + amount]
  }

  /** Takes `amount` out of the position at `unlockEpoch`; a position emptied
      in full is destroyed. */
  function Withdraw(h: Holdings, unlockEpoch: nat, amount: nat): (h': Holdings)
    requires unlockEpoch in h && amount <= h[unlockEpoch]
    ensures h'.Keys <= h.Keys
    ensures unlockEpoch !in h' <==> amount == h[unlockEpoch]
    ensures forall e :: AmountAt(h', e) == AmountAt(h, e) - (if e == unlockEpoch then amount else 0)
  {
    if amount == h[unlockEpoch] then h - {unlockEpoch}
    else h[unlockEpoch := h[unlockEpoch] - amount]
  }

  /** A fixed but unspecified position, used to fold over the map. */
  ghost function Pick(h: Holdings): (e: nat)
    requires h != map[]
    ensures e in h
  {
    var e :| e in h; e
  }

  /** The energy the positions carry at `epoch`: sum of amount * (unlock - epoch). */
  ghost function Weighted(h: Holdings, epoch: int): int
    decreases |h|
  {
    if h == map[] then 0
    else
      var e := Pick(h);
      h[e] * (e - epoch) + Weighted(h - {e}, epoch)
  }

  /** The total amount locked in the positions. */
  ghost function Total(h: Holdings): nat
    decreases |h|
  {
    if h == map[] then 0
    else
      var e := Pick(h);
      h[e] + Total(h - {e})
  }

  /** The weighted sum can be unfolded at any position, not only at Pick's. */
  lemma {:induction false} WeightedRemove(h: Holdings, e: nat, epoch: int)
    requires e in h
    ensures Weighted(h, epoch) == h[e] * (e - epoch) + Weighted(h - {e}, epoch)
    decreases |h|
  {
    var p := Pick(h);
    if p != e {
      WeightedRemove(h - {p}, e, epoch);
      WeightedRemove(h - {e}, p, epoch);
      assert h - {p} - {e} == h - {e} - {p};
    }
  }

  lemma {:induction false} TotalRemove(h: Holdings, e: nat)
    requires e in h
    ensures Total(h) == h[e] + Total(h - {e})
    decreases |h|
  {
    var p := Pick(h);
    if p != e {
      TotalRemove(h - {p}, e);
      TotalRemove(h - {e}, p);
      assert h - {p} - {e} == h - {e} - {p};
    }
  }

  /** Linearity of energy in time: k epochs later every locked token carries
      k epochs less. */
  lemma {:induction false} WeightedShift(h: Holdings, epoch: int, k: int)
    ensures Weighted(h, epoch + k) == Weighted(h, epoch) - k * Total(h)
    decreases |h|
  {
    if h != map[] {
      var e := Pick(h);
      WeightedShift(h - {e}, epoch, k);
      assert h[e] * (e - (epoch + k)) == h[e] * (e - epoch) - k * h[e];
      assert k * Total(h) == k * h[e] + k * Total(h - {e});
    }
  }

  /** A single position of `amount` unlocking at `unlockEpoch` carries
      amount * (unlockEpoch - epoch). */
  lemma WeightedSingle(unlockEpoch: nat, amount: nat, epoch: int)
    ensures Weighted(map[unlockEpoch := amount], epoch) == amount * (unlockEpoch - epoch)
    ensures Total(map[unlockEpoch := amount]) == amount
  {
    var h: Holdings := map[unlockEpoch := amount];
    assert unlockEpoch in h;
    assert Pick(h) == unlockEpoch;
    assert h - {unlockEpoch} == map[];
  }

  lemma MulAddRight(a: int, b: int, w: int)
    ensures (a + b) * w == a * w + b * w
  {
  }

  /** Depositing adds exactly the new tokens' own term. */
  lemma DepositSums(h: Holdings, unlockEpoch: nat, amount: nat, epoch: int)
    ensures Weighted(Deposit(h, unlockEpoch, amount), epoch) == Weighted(h, epoch) + amount * (unlockEpoch - epoch)
    ensures Total(Deposit(h, unlockEpoch, amount)) == Total(h) + amount
  {
    var h': Holdings := Deposit(h, unlockEpoch, amount);
    var before := AmountAt(h, unlockEpoch);
    var w := unlockEpoch - epoch;
    WeightedRemove(h', unlockEpoch, epoch);
    TotalRemove(h', unlockEpoch);
    assert h' - {unlockEpoch} == h - {unlockEpoch};
    if unlockEpoch in h {
      WeightedRemove(h, unlockEpoch, epoch);
      TotalRemove(h, unlockEpoch);
    } else {
      assert h - {unlockEpoch} == h;
    }
    assert Weighted(h, epoch) == before * w + Weighted(h - {unlockEpoch}, epoch);
    assert h'[unlockEpoch] == before + amount;
    MulAddRight(before, amount, w);
  }

  /** Withdrawing removes exactly the withdrawn tokens' own term. */
  lemma WithdrawSums(h: Holdings, unlockEpoch: nat, amount: nat, epoch: int)
    requires unlockEpoch in h && amount <= h[unlockEpoch]
    ensures Weighted(Withdraw(h, unlockEpoch, amount), epoch) == Weighted(h, epoch) - amount * (unlockEpoch - epoch)
    ensures Total(Withdraw(h, unlockEpoch, amount)) == Total(h) - amount
  {
    var h': Holdings := Withdraw(h, unlockEpoch, amount);
    var rest := h[unlockEpoch] - amount;
    var w := unlockEpoch - epoch;
    WeightedRemove(h, unlockEpoch, epoch);
    TotalRemove(h, unlockEpoch);
    if rest > 0 {
      WeightedRemove(h', unlockEpoch, epoch);
      TotalRemove(h', unlockEpoch);
      assert h' - {unlockEpoch} == h - {unlockEpoch};
    } else {
      assert h' == h - {unlockEpoch};
    }
    assert Weighted(h', epoch) == rest * w + Weighted(h - {unlockEpoch}, epoch);
    MulAddRight(rest, amount, w);
  }

  /** A user's stored energy entry. */
  datatype Energy = Energy(amount: int, lastUpdateEpoch: nat, totalLockedTokens: int)

  /** The entry equals the true sums over the positions as of its own epoch. */
  ghost predicate Tracks(en: Energy, h: Holdings) {
    en.amount == Weighted(h, en.lastUpdateEpoch) && en.totalLockedTokens == Total(h)
  }

  /** Brings an entry forward to `now`: every locked token loses one unit of
      energy per elapsed epoch. */
  function DepleteTo(en: Energy, now: nat): (r: Energy)
    requires en.lastUpdateEpoch <= now
    ensures r.lastUpdateEpoch == now
    ensures forall h {:trigger Tracks(r, h)} :: Tracks(en, h) ==> Tracks(r, h) && r.amount == Weighted(h, now)
  {
    var r := Energy(en.amount - en.totalLockedTokens * (now - en.lastUpdateEpoch), now, en.totalLockedTokens);
    assert forall h :: Tracks(en, h) ==> Tracks(r, h) by {
      forall h | Tracks(en, h) ensures Tracks(r, h) {
        WeightedShift(h, en.lastUpdateEpoch, now - en.lastUpdateEpoch);
      }
    }
    r
  }

  /** Accounts for `lockAmount` newly locked until `unlockEpoch`. */
  function AddLocked(en: Energy, lockAmount: nat, unlockEpoch: nat): (r: Energy)
    ensures r.lastUpdateEpoch == en.lastUpdateEpoch
    ensures forall h {:trigger Tracks(r, Deposit(h, unlockEpoch, lockAmount))} ::
              Tracks(en, h) ==> Tracks(r, Deposit(h, unlockEpoch, lockAmount))
  {
    var r := Energy(en.amount + lockAmount * (unlockEpoch - en.lastUpdateEpoch), en.lastUpdateEpoch,
                    en.totalLockedTokens + lockAmount);
    assert forall h :: Tracks(en, h) ==> Tracks(r, Deposit(h, unlockEpoch, lockAmount)) by {
      forall h | Tracks(en, h) ensures Tracks(r, Deposit(h, unlockEpoch, lockAmount)) {
        DepositSums(h, unlockEpoch, lockAmount, en.lastUpdateEpoch);
      }
    }
    r
  }

  /** Accounts for `unlockAmount` leaving a position that unlocks at
      `unlockEpoch`: the remaining-epoch energy of an early exit is taken away,
      and the negative energy a matured position has accrued is refunded. */
  function RemoveLocked(en: Energy, unlockAmount: nat, unlockEpoch: nat): (r: Energy)
    ensures r.lastUpdateEpoch == en.lastUpdateEpoch
    ensures forall h {:trigger Tracks(r, Withdraw(h, unlockEpoch, unlockAmount))} ::
              Tracks(en, h) && unlockEpoch in h && unlockAmount <= h[unlockEpoch] ==>
              Tracks(r, Withdraw(h, unlockEpoch, unlockAmount))
  {
    var r := Energy(en.amount - unlockAmount * (unlockEpoch - en.lastUpdateEpoch), en.lastUpdateEpoch,
                    en.totalLockedTokens - unlockAmount);
    assert forall h :: Tracks(en, h) && unlockEpoch in h && unlockAmount <= h[unlockEpoch] ==>
             Tracks(r, Withdraw(h, unlockEpoch, unlockAmount)) by {
      forall h | Tracks(en, h) && unlockEpoch in h && unlockAmount <= h[unlockEpoch]
        ensures Tracks(r, Withdraw(h, unlockEpoch, unlockAmount))
      {
        WithdrawSums(h, unlockEpoch, unlockAmount, en.lastUpdateEpoch);
      }
    }
    r
  }

  /** Decay keeps the entry equal to sum of amount * (unlock - now). */
  lemma DepleteKeepsTracking(en: Energy, h: Holdings, now: nat)
    requires Tracks(en, h) && en.lastUpdateEpoch <= now
    ensures Tracks(DepleteTo(en, now), h)
    ensures DepleteTo(en, now).amount == Weighted(h, now)
  {
    WeightedShift(h, en.lastUpdateEpoch, now - en.lastUpdateEpoch);
  }

  /** Locking keeps the entry equal to the sums over the enlarged positions. */
  lemma AddLockedKeepsTracking(en: Energy, h: Holdings, lockAmount: nat, unlockEpoch: nat)
    requires Tracks(en, h)
    ensures Tracks(AddLocked(en, lockAmount, unlockEpoch), Deposit(h, unlockEpoch, lockAmount))
  {
    DepositSums(h, unlockEpoch, lockAmount, en.lastUpdateEpoch);
  }

  /** Unlocking keeps the entry equal to the sums over the reduced positions. */
  lemma RemoveLockedKeepsTracking(en: Energy, h: Holdings, unlockAmount: nat, unlockEpoch: nat)
    requires Tracks(en, h) && unlockEpoch in h && unlockAmount <= h[unlockEpoch]
    ensures Tracks(RemoveLocked(en, unlockAmount, unlockEpoch), Withdraw(h, unlockEpoch, unlockAmount))
  {
    WithdrawSums(h, unlockEpoch, unlockAmount, en.lastUpdateEpoch);
  }

  /** A user without positions has no energy, whatever the epoch. */
  lemma NoPositionsNoEnergy(en: Energy, now: nat)
    requires Tracks(en, map[]) && en.lastUpdateEpoch <= now
    ensures DepleteTo(en, now).amount == 0 && en.totalLockedTokens == 0
  {
  }
}
