/** The lock engine: a holder locks the base asset for one of the offered
    durations and receives locked tokens; the engine keeps every holder's
    positions and energy, charges penalties on early exits and reductions,
    holds the penalty fees for the running week and releases early-exit
    proceeds through an unbonding delay. */
module EnergyFactory {
  import opened Config
  import opened Penalty
  import opened EnergyLedger
  import opened WeeklyFees
  import opened Unbonding

  /** Locked tokens handed to a caller: the token nonce, the amount, and the
      unlock epoch carried in the token's attributes. */
  datatype LockedTokens = LockedTokens(nonce: nat, amount: nat, unlockEpoch: nat)

  /** What an early exit pays: the tokens sent to unbonding and the penalty. */
  datatype EarlyExit = EarlyExit(received: nat, penalty: nat)

  /** The nonce the locked tokens unlocking at `unlockEpoch` carry: the one
      already minted for that epoch, or the next fresh one. */
  function NonceFor(nonceOf: map<nat, nat>, nextNonce: nat, unlockEpoch: nat): nat {
    if unlockEpoch in nonceOf then nonceOf[unlockEpoch] else nextNonce
  }

  /** The nonce counter after `unlockEpoch` has been given its nonce. */
  function NextNonceAfter(nonceOf: map<nat, nat>, nextNonce: nat, unlockEpoch: nat): nat {
    if unlockEpoch in nonceOf then nextNonce else nextNonce + 1
  }

  /** The epochs left before `unlockEpoch`, none once it has passed. */
  function RemainingEpochs(unlockEpoch: nat, now: nat): (left: nat)
    ensures unlockEpoch > now ==> now + left == unlockEpoch
    ensures unlockEpoch <= now ==> left == 0
  {
    if unlockEpoch > now then unlockEpoch - now else 0
  }

  /** The energy `amount` tokens unlocking at `unlockEpoch` carry at `now`. */
  function PositionEnergy(amount: nat, unlockEpoch: nat, now: nat): int {
    amount * (unlockEpoch - now)
  }

  function HoldingsIn(positions: map<Address, Holdings>, user: Address): Holdings {
    if user in positions then positions[user] else map[]
  }

  /** The user's energy entry brought forward to `now`; a new, empty entry
      when the user has none. */
  function EntryIn(energy: map<Address, Energy>, user: Address, now: nat): Energy
    requires user in energy ==> energy[user].lastUpdateEpoch <= now
  {
    if user in energy then DepleteTo(energy[user], now) else Energy(0, now, 0)
  }

  /** Every holder with positions has an energy entry, every position's unlock
      epoch has a minted nonce, and every entry, as of its own epoch (never
      later than `currentEpoch`), equals the sums over the holder's positions. */
  ghost predicate UsersValid(positions: map<Address, Holdings>, energy: map<Address, Energy>,
                             minted: set<nat>, currentEpoch: nat)
  {
    && (forall a :: a in positions ==> a in energy && positions[a].Keys <= minted)
    && (forall a :: a in energy ==>
          energy[a].lastUpdateEpoch <= currentEpoch && Tracks(energy[a], HoldingsIn(positions, a)))
  }

  /** Replacing one holder's positions and entry by a consistent pair keeps
      every holder consistent. */
  lemma UsersValidUpdate(positions: map<Address, Holdings>, energy: map<Address, Energy>,
                         minted: set<nat>, currentEpoch: nat,
                         user: Address, h: Holdings, en: Energy, minted': set<nat>, now: nat)
    requires UsersValid(positions, energy, minted, currentEpoch)
    requires currentEpoch <= now && minted <= minted' && h.Keys <= minted'
    requires en.lastUpdateEpoch <= now && Tracks(en, h)
    ensures UsersValid(positions[user := h], energy[user := en], minted', now)
  {
    var positions', energy' := positions[user := h], energy[user := en];
    forall a | a in energy'
      ensures energy'[a].lastUpdateEpoch <= now && Tracks(energy'[a], HoldingsIn(positions', a))
    {
      if a != user {
        assert HoldingsIn(positions', a) == HoldingsIn(positions, a);
      }
    }
  }

  /** Brought forward to `now`, a holder's entry equals the sums over the
      holder's positions at `now`. */
  lemma EntryInTracks(positions: map<Address, Holdings>, energy: map<Address, Energy>,
                      minted: set<nat>, currentEpoch: nat, user: Address, now: nat)
    requires UsersValid(positions, energy, minted, currentEpoch) && currentEpoch <= now
    ensures EntryIn(energy, user, now).lastUpdateEpoch == now
    ensures Tracks(EntryIn(energy, user, now), HoldingsIn(positions, user))
    ensures EntryIn(energy, user, now).amount == Weighted(HoldingsIn(positions, user), now)
  {
    if user in energy {
      DepleteKeepsTracking(energy[user], HoldingsIn(positions, user), now);
    } else {
      assert HoldingsIn(positions, user) == map[];
    }
  }

  /** Locking `amount` until `unlockEpoch` keeps every holder consistent and
      adds exactly amount * (unlockEpoch - now) to the holder's energy. */
  lemma LockKeepsUsersValid(positions: map<Address, Holdings>, energy: map<Address, Energy>,
                            minted: set<nat>, currentEpoch: nat,
                            user: Address, amount: nat, unlockEpoch: nat, now: nat)
    requires UsersValid(positions, energy, minted, currentEpoch) && currentEpoch <= now
    ensures UsersValid(positions[user := Deposit(HoldingsIn(positions, user), unlockEpoch, amount)],
                       energy[user := AddLocked(EntryIn(energy, user, now), amount, unlockEpoch)],
                       minted + {unlockEpoch}, now)
    ensures Weighted(Deposit(HoldingsIn(positions, user), unlockEpoch, amount), now)
         == Weighted(HoldingsIn(positions, user), now) + PositionEnergy(amount, unlockEpoch, now)
  {
    var h, en := HoldingsIn(positions, user), EntryIn(energy, user, now);
    EntryInTracks(positions, energy, minted, currentEpoch, user, now);
    AddLockedKeepsTracking(en, h, amount, unlockEpoch);
    DepositSums(h, unlockEpoch, amount, now);
    UsersValidUpdate(positions, energy, minted, currentEpoch, user,
                     Deposit(h, unlockEpoch, amount), AddLocked(en, amount, unlockEpoch), minted + {unlockEpoch}, now);
  }

  /** Taking `amount` out of the position at `unlockEpoch` keeps every holder
      consistent and takes exactly amount * (unlockEpoch - now) off the
      holder's energy (a refund once the epoch has passed). */
  lemma UnlockKeepsUsersValid(positions: map<Address, Holdings>, energy: map<Address, Energy>,
                              minted: set<nat>, currentEpoch: nat,
                              user: Address, amount: nat, unlockEpoch: nat, now: nat)
    requires UsersValid(positions, energy, minted, currentEpoch) && currentEpoch <= now
    requires unlockEpoch in HoldingsIn(positions, user) && amount <= HoldingsIn(positions, user)[unlockEpoch]
    ensures UsersValid(positions[user := Withdraw(HoldingsIn(positions, user), unlockEpoch, amount)],
                       energy[user := RemoveLocked(EntryIn(energy, user, now), amount, unlockEpoch)],
                       minted, now)
    ensures Weighted(Withdraw(HoldingsIn(positions, user), unlockEpoch, amount), now)
         == Weighted(HoldingsIn(positions, user), now) - PositionEnergy(amount, unlockEpoch, now)
  {
    var h, en := HoldingsIn(positions, user), EntryIn(energy, user, now);
    EntryInTracks(positions, energy, minted, currentEpoch, user, now);
    RemoveLockedKeepsTracking(en, h, amount, unlockEpoch);
    WithdrawSums(h, unlockEpoch, amount, now);
    UsersValidUpdate(positions, energy, minted, currentEpoch, user,
                     Withdraw(h, unlockEpoch, amount), RemoveLocked(en, amount, unlockEpoch), minted, now);
  }

  /** Moving `amount` from the position at `unlockEpoch` to `newAmount` at
      `newUnlockEpoch` keeps every holder consistent; the holder's energy
      changes by exactly the two positions' terms. */
  lemma RelockKeepsUsersValid(positions: map<Address, Holdings>, energy: map<Address, Energy>,
                              minted: set<nat>, currentEpoch: nat, user: Address,
                              amount: nat, unlockEpoch: nat, newAmount: nat, newUnlockEpoch: nat, now: nat)
    requires UsersValid(positions, energy, minted, currentEpoch) && currentEpoch <= now
    requires unlockEpoch in HoldingsIn(positions, user) && amount <= HoldingsIn(positions, user)[unlockEpoch]
    ensures UsersValid(positions[user := Deposit(Withdraw(HoldingsIn(positions, user), unlockEpoch, amount),
                                                 newUnlockEpoch, newAmount)],
                       energy[user := AddLocked(RemoveLocked(EntryIn(energy, user, now), amount, unlockEpoch),
                                                newAmount, newUnlockEpoch)],
                       minted + {newUnlockEpoch}, now)
    ensures Weighted(Deposit(Withdraw(HoldingsIn(positions, user), unlockEpoch, amount), newUnlockEpoch, newAmount), now)
         == Weighted(HoldingsIn(positions, user), now) - PositionEnergy(amount, unlockEpoch, now)
            + PositionEnergy(newAmount, newUnlockEpoch, now)
  {
    var h, en := HoldingsIn(positions, user), EntryIn(energy, user, now);
    var h1, en1 := Withdraw(h, unlockEpoch, amount), RemoveLocked(en, amount, unlockEpoch);
    EntryInTracks(positions, energy, minted, currentEpoch, user, now);
    RemoveLockedKeepsTracking(en, h, amount, unlockEpoch);
    WithdrawSums(h, unlockEpoch, amount, now);
    AddLockedKeepsTracking(en1, h1, newAmount, newUnlockEpoch);
    DepositSums(h1, newUnlockEpoch, newAmount, now);
    UsersValidUpdate(positions, energy, minted, currentEpoch, user,
                     Deposit(h1, newUnlockEpoch, newAmount), AddLocked(en1, newAmount, newUnlockEpoch),
                     minted + {newUnlockEpoch}, now);
  }

  class LockEngine {
    const baseAssetToken: TokenId
    const lockOptions: seq<LockOption>
    const unbondEpochs: nat
    /** The part of a penalty kept as fees; the rest is burned. */
    const feeShare: nat -> nat

    /** The latest epoch any operation has run at. */
    var currentEpoch: nat
    /** Unlock epoch -> the nonce of the locked tokens that carry it. */
    var nonceOf: map<nat, nat>
    /** Nonce -> unlock epoch: the attributes of each minted nonce. */
    var unlockEpochOf: map<nat, nat>
    var nextNonce: nat
    /** Each holder's locked-token balances, by unlock epoch. */
    var positions: map<Address, Holdings>
    var energy: map<Address, Energy>
    var unbonding: map<Address, seq<UnbondEntry>>
    /** Fees held for the running week. */
    var fees: FeeHolding
    /** Everything forwarded to the fee collector so far. */
    var sentToCollector: nat
    /** Every fee ever charged. */
    ghost var feesCharged: nat

    /** Nonces and unlock epochs are in one-to-one correspondence, and every
        minted nonce is below the counter. */
    ghost predicate NoncesValid()
      reads this`nonceOf, this`unlockEpochOf, this`nextNonce
    {
      && 1 <= nextNonce
      && (forall e :: e in nonceOf ==> nonceOf[e] in unlockEpochOf && unlockEpochOf[nonceOf[e]] == e)
      && (forall n :: n in unlockEpochOf ==>
            1 <= n < nextNonce && unlockEpochOf[n] in nonceOf && nonceOf[unlockEpochOf[n]] == n)
    }

    /** No minted unlock epoch lies further ahead than the longest option. */
    ghost predicate EpochsBounded(now: nat)
      reads this`nonceOf
      requires ValidOptions(lockOptions)
    {
      forall e :: e in nonceOf ==> e <= now + MaxLockEpochs(lockOptions)
    }

    /** The lock positions, nonces and energy entries agree with each other. */
    ghost predicate LocksValid()
      reads this`nonceOf, this`unlockEpochOf, this`nextNonce, this`positions, this`energy, this`currentEpoch
    {
      && ValidOptions(lockOptions)
      && NoncesValid()
      && EpochsBounded(currentEpoch)
      && UsersValid(positions, energy, nonceOf.Keys, currentEpoch)
    }

    /** Every fee charged is either still held or sent to the collector. */
    ghost predicate FeesValid()
      reads this`fees, this`sentToCollector, this`feesCharged
    {
      sentToCollector + fees.held == feesCharged
    }

    ghost predicate Valid()
      reads this
    {
      LocksValid() && FeesValid()
    }

    function HoldingsOf(user: Address): Holdings
      reads this`positions
    {
      HoldingsIn(positions, user)
    }

    function UnbondingOf(user: Address): seq<UnbondEntry>
      reads this`unbonding
    {
      if user in unbonding then unbonding[user] else []
    }

    /** Whether `user` holds locked tokens of nonce `nonce`. */
    predicate Holds(user: Address, nonce: nat)
      reads this`unlockEpochOf, this`positions
    {
      nonce in unlockEpochOf && unlockEpochOf[nonce] in HoldingsOf(user)
    }

    function BalanceOf(user: Address, nonce: nat): nat
      reads this`unlockEpochOf, this`positions
    {
      if Holds(user, nonce) then HoldingsOf(user)[unlockEpochOf[nonce]] else 0
    }

    /** A held position's unlock epoch has a nonce and lies no further ahead
        than the longest option. */
    lemma HeldEpochBounded(user: Address, nonce: nat, now: nat)
      requires LocksValid() && currentEpoch <= now && Holds(user, nonce)
      ensures RemainingEpochs(unlockEpochOf[nonce], now) <= MaxLockEpochs(lockOptions)
    {
      assert unlockEpochOf[nonce] in nonceOf;
    }

    constructor (baseAssetToken: TokenId, lockOptions: seq<LockOption>, unbondEpochs: nat,
                 feeShare: nat -> nat, initEpoch: nat)
      requires ValidOptions(lockOptions)
      ensures Valid()
      ensures this.baseAssetToken == baseAssetToken && this.lockOptions == lockOptions
      ensures this.unbondEpochs == unbondEpochs && this.feeShare == feeShare
      ensures currentEpoch == initEpoch && nextNonce == 1
      ensures nonceOf == map[] && unlockEpochOf == map[]
      ensures positions == map[] && energy == map[] && unbonding == map[]
      ensures fees == FeeHolding(WeekOf(initEpoch), 0) && sentToCollector == 0
    {
      this.baseAssetToken := baseAssetToken;
      this.lockOptions := lockOptions;
      this.unbondEpochs := unbondEpochs;
      this.feeShare := feeShare;
      currentEpoch := initEpoch;
      nonceOf := map[];
      unlockEpochOf := map[];
      nextNonce := 1;
      positions := map[];
      energy := map[];
      unbonding := map[];
      fees := FeeHolding(WeekOf(initEpoch), 0);
      sentToCollector := 0;
      feesCharged := 0;
    }

    /** The nonce for tokens unlocking at `unlockEpoch`, minting a fresh one
        the first time that epoch is used. */
    method MintNonce(unlockEpoch: nat) returns (nonce: nat)
      requires NoncesValid()
      modifies this`nonceOf, this`unlockEpochOf, this`nextNonce
      ensures NoncesValid()
      ensures nonce == NonceFor(old(nonceOf), old(nextNonce), unlockEpoch)
      ensures nonceOf == old(nonceOf)[unlockEpoch := nonce]
      ensures unlockEpochOf == old(unlockEpochOf)[nonce := unlockEpoch]
      ensures nextNonce == NextNonceAfter(old(nonceOf), old(nextNonce), unlockEpoch)
    {
      if unlockEpoch in nonceOf {
        nonce := nonceOf[unlockEpoch];
        assert nonceOf[unlockEpoch := nonce] == nonceOf;
        assert unlockEpochOf[nonce := unlockEpoch] == unlockEpochOf;
      } else {
        nonce := nextNonce;
        nonceOf := nonceOf[unlockEpoch := nonce];
        unlockEpochOf := unlockEpochOf[nonce := unlockEpoch];
        nextNonce := nextNonce + 1;
      }
    }

    /** Charges a penalty fee in the week of `now`. */
    method ChargeFee(fee: nat, now: nat)
      requires FeesValid()
      modifies this`fees, this`sentToCollector, this`feesCharged
      ensures FeesValid()
      ensures fees == AccumulateFees(old(fees), fee, WeekOf(now)).holding
      ensures sentToCollector == old(sentToCollector) + AccumulateFees(old(fees), fee, WeekOf(now)).toCollector
      ensures feesCharged == old(feesCharged) + fee
    {
      var step := AccumulateFees(fees, fee, WeekOf(now));
      fees := step.holding;
      sentToCollector := sentToCollector + step.toCollector;
      feesCharged := feesCharged + fee;
    }

    /** Stores `user`'s new positions and energy entry and moves the clock to `now`. */
    method Store(user: Address, h: Holdings, en: Energy, now: nat)
      requires ValidOptions(lockOptions) && NoncesValid() && EpochsBounded(now)
      requires UsersValid(positions[user := h], energy[user := en], nonceOf.Keys, now)
      requires currentEpoch <= now
      modifies this`positions, this`energy, this`currentEpoch
      ensures LocksValid()
      ensures positions == old(positions)[user := h] && energy == old(energy)[user := en]
      ensures currentEpoch == now
    {
      positions := positions[user := h];
      energy := energy[user := en];
      currentEpoch := now;
    }

    /** Adds `amount` to the caller's position at `unlockEpoch`. */
    method PlaceLock(caller: Address, amount: nat, unlockEpoch: nat, now: nat) returns (nonce: nat)
      requires LocksValid() && currentEpoch <= now && unlockEpoch <= now + MaxLockEpochs(lockOptions)
      modifies this`nonceOf, this`unlockEpochOf, this`nextNonce, this`positions, this`energy, this`currentEpoch
      ensures LocksValid()
      ensures nonce == NonceFor(old(nonceOf), old(nextNonce), unlockEpoch)
      ensures nextNonce == NextNonceAfter(old(nonceOf), old(nextNonce), unlockEpoch)
      ensures nonceOf == old(nonceOf)[unlockEpoch := nonce]
      ensures unlockEpochOf == old(unlockEpochOf)[nonce := unlockEpoch]
      ensures positions == old(positions)[caller := Deposit(old(HoldingsOf(caller)), unlockEpoch, amount)]
      ensures energy == old(energy)[caller := AddLocked(EntryIn(old(energy), caller, now), amount, unlockEpoch)]
      ensures currentEpoch == now
      ensures Weighted(HoldingsOf(caller), now) == old(Weighted(HoldingsOf(caller), now)) + PositionEnergy(amount, unlockEpoch, now)
    {
      var held := HoldingsOf(caller);
      var entry := EntryIn(energy, caller, now);
      LockKeepsUsersValid(positions, energy, nonceOf.Keys, currentEpoch, caller, amount, unlockEpoch, now);
      nonce := MintNonce(unlockEpoch);
      assert nonceOf.Keys == old(nonceOf.Keys) + {unlockEpoch};
      Store(caller, Deposit(held, unlockEpoch, amount), AddLocked(entry, amount, unlockEpoch), now);
    }

    /** Takes `amount` out of the caller's position at `unlockEpoch`. */
    method TakeOut(caller: Address, unlockEpoch: nat, amount: nat, now: nat)
      requires LocksValid() && currentEpoch <= now
      requires unlockEpoch in HoldingsOf(caller) && amount <= HoldingsOf(caller)[unlockEpoch]
      modifies this`positions, this`energy, this`currentEpoch
      ensures LocksValid()
      ensures positions == old(positions)[caller := Withdraw(old(HoldingsOf(caller)), unlockEpoch, amount)]
      ensures energy == old(energy)[caller := RemoveLocked(EntryIn(old(energy), caller, now), amount, unlockEpoch)]
      ensures currentEpoch == now
      ensures Weighted(HoldingsOf(caller), now) == old(Weighted(HoldingsOf(caller), now)) - PositionEnergy(amount, unlockEpoch, now)
    {
      var held := HoldingsOf(caller);
      var entry := EntryIn(energy, caller, now);
      UnlockKeepsUsersValid(positions, energy, nonceOf.Keys, currentEpoch, caller, amount, unlockEpoch, now);
      Store(caller, Withdraw(held, unlockEpoch, amount), RemoveLocked(entry, amount, unlockEpoch), now);
    }

    /** Moves `amount` out of the caller's position at `unlockEpoch` and puts
        `newAmount` into the position at `newUnlockEpoch`. */
    method Relock(caller: Address, unlockEpoch: nat, amount: nat, newAmount: nat, newUnlockEpoch: nat, now: nat)
      returns (nonce: nat)
      requires LocksValid() && currentEpoch <= now && newUnlockEpoch <= now + MaxLockEpochs(lockOptions)
      requires unlockEpoch in HoldingsOf(caller) && amount <= HoldingsOf(caller)[unlockEpoch]
      modifies this`nonceOf, this`unlockEpochOf, this`nextNonce, this`positions, this`energy, this`currentEpoch
      ensures LocksValid()
      ensures nonce == NonceFor(old(nonceOf), old(nextNonce), newUnlockEpoch)
      ensures nextNonce == NextNonceAfter(old(nonceOf), old(nextNonce), newUnlockEpoch)
      ensures nonceOf == old(nonceOf)[newUnlockEpoch := nonce]
      ensures unlockEpochOf == old(unlockEpochOf)[nonce := newUnlockEpoch]
      ensures positions == old(positions)[caller := Deposit(Withdraw(old(HoldingsOf(caller)), unlockEpoch, amount),
                                                       newUnlockEpoch, newAmount)]
      ensures energy == old(energy)[caller := AddLocked(RemoveLocked(EntryIn(old(energy), caller, now), amount, unlockEpoch),
                                                   newAmount, newUnlockEpoch)]
      ensures currentEpoch == now
      ensures Weighted(HoldingsOf(caller), now)
           == old(Weighted(HoldingsOf(caller), now)) - PositionEnergy(amount, unlockEpoch, now)
              + PositionEnergy(newAmount, newUnlockEpoch, now)
    {
      var held := HoldingsOf(caller);
      var entry := EntryIn(energy, caller, now);
      RelockKeepsUsersValid(positions, energy, nonceOf.Keys, currentEpoch, caller,
                            amount, unlockEpoch, newAmount, newUnlockEpoch, now);
      nonce := MintNonce(newUnlockEpoch);
      assert nonceOf.Keys == old(nonceOf.Keys) + {newUnlockEpoch};
      Store(caller, Deposit(Withdraw(held, unlockEpoch, amount), newUnlockEpoch, newAmount),
            AddLocked(RemoveLocked(entry, amount, unlockEpoch), newAmount, newUnlockEpoch), now);
    }

    /** Moves `amount` tokens from `unlockEpoch` to `newUnlockEpoch`, keeping
        `kept` of them locked, and charges `fee`. */
    method ApplyReduction(caller: Address, unlockEpoch: nat, amount: nat, kept: nat, newUnlockEpoch: nat,
                          fee: nat, now: nat)
      returns (locked: LockedTokens)
      requires Valid() && currentEpoch <= now && newUnlockEpoch <= now + MaxLockEpochs(lockOptions)
      requires unlockEpoch in HoldingsOf(caller) && amount <= HoldingsOf(caller)[unlockEpoch]
      modifies this`nonceOf, this`unlockEpochOf, this`nextNonce, this`positions, this`energy, this`currentEpoch
      modifies this`fees, this`sentToCollector, this`feesCharged
      ensures Valid()
      ensures locked == LockedTokens(NonceFor(old(nonceOf), old(nextNonce), newUnlockEpoch), kept, newUnlockEpoch)
      ensures nextNonce == NextNonceAfter(old(nonceOf), old(nextNonce), newUnlockEpoch)
      ensures nonceOf == old(nonceOf)[newUnlockEpoch := locked.nonce]
      ensures unlockEpochOf == old(unlockEpochOf)[locked.nonce := newUnlockEpoch]
      ensures positions == old(positions)[caller := Deposit(Withdraw(old(HoldingsOf(caller)), unlockEpoch, amount),
                                                       newUnlockEpoch, kept)]
      ensures energy == old(energy)[caller := AddLocked(RemoveLocked(EntryIn(old(energy), caller, now), amount, unlockEpoch),
                                                   kept, newUnlockEpoch)]
      ensures currentEpoch == now
      ensures fees == AccumulateFees(old(fees), fee, WeekOf(now)).holding
      ensures sentToCollector == old(sentToCollector) + AccumulateFees(old(fees), fee, WeekOf(now)).toCollector
      ensures Weighted(HoldingsOf(caller), now)
           == old(Weighted(HoldingsOf(caller), now)) - PositionEnergy(amount, unlockEpoch, now)
              + PositionEnergy(locked.amount, locked.unlockEpoch, now)
    {
      var nonce := Relock(caller, unlockEpoch, amount, kept, newUnlockEpoch, now);
      ChargeFee(fee, now);
      locked := LockedTokens(nonce, kept, newUnlockEpoch);
    }

    /** Takes `amount` out of the caller's position at `unlockEpoch`, charges
        `fee` and queues `received` tokens for the unbond delay. */
    method ApplyEarlyExit(caller: Address, unlockEpoch: nat, amount: nat, received: nat, fee: nat, now: nat)
      requires Valid() && currentEpoch <= now
      requires unlockEpoch in HoldingsOf(caller) && amount <= HoldingsOf(caller)[unlockEpoch]
      modifies this`positions, this`energy, this`currentEpoch, this`unbonding
      modifies this`fees, this`sentToCollector, this`feesCharged
      ensures Valid()
      ensures positions == old(positions)[caller := Withdraw(old(HoldingsOf(caller)), unlockEpoch, amount)]
      ensures energy == old(energy)[caller := RemoveLocked(EntryIn(old(energy), caller, now), amount, unlockEpoch)]
      ensures unbonding == old(unbonding)[caller := old(UnbondingOf(caller)) + [UnbondEntry(received, now + unbondEpochs)]]
      ensures UnbondingOf(caller) == old(UnbondingOf(caller)) + [UnbondEntry(received, now + unbondEpochs)]
      ensures fees == AccumulateFees(old(fees), fee, WeekOf(now)).holding
      ensures sentToCollector == old(sentToCollector) + AccumulateFees(old(fees), fee, WeekOf(now)).toCollector
      ensures currentEpoch == now
      ensures Weighted(HoldingsOf(caller), now) == old(Weighted(HoldingsOf(caller), now)) - PositionEnergy(amount, unlockEpoch, now)
    {
      var queue := UnbondingOf(caller);
      TakeOut(caller, unlockEpoch, amount, now);
      ChargeFee(fee, now);
      unbonding := unbonding[caller := queue + [UnbondEntry(received, now + unbondEpochs)]];
    }


    /** The user's energy at `now`: the sum over the user's positions of
        amount * (unlock epoch - now). */
    method GetUserEnergy(user: Address, now: nat) returns (amount: int)
      requires Valid() && currentEpoch <= now
      ensures amount == Weighted(HoldingsOf(user), now)
    {
      EntryInTracks(positions, energy, nonceOf.Keys, currentEpoch, user, now);
      amount := EntryIn(energy, user, now).amount;
    }

    /** Locks `payment` for `lockEpochs`; the tokens unlock at the start of
        the month in which the lock ends, and join any position of the
        caller's with that unlock epoch. */
    method Lock(caller: Address, payment: Payment, lockEpochs: nat, now: nat) returns (r: Result<LockedTokens>)
      requires Valid() && currentEpoch <= now
      modifies this`nonceOf, this`unlockEpochOf, this`nextNonce, this`positions, this`energy, this`currentEpoch
      ensures Valid()
      ensures r.Failure? ==> unchanged(this)
      ensures payment.token != baseAssetToken ==> r == Failure(InvalidPaymentToken)
      ensures payment.token == baseAssetToken && !IsLockOption(lockOptions, lockEpochs) ==>
                r == Failure(InvalidLockChoice)
      ensures r.Success? <==> payment.token == baseAssetToken && IsLockOption(lockOptions, lockEpochs)
      ensures r.Success? ==>
        var unlockEpoch := ToStartOfMonth(now + lockEpochs);
        && r.value == LockedTokens(NonceFor(old(nonceOf), old(nextNonce), unlockEpoch), payment.amount, unlockEpoch)
        && nextNonce == NextNonceAfter(old(nonceOf), old(nextNonce), unlockEpoch)
        && nonceOf == old(nonceOf)[unlockEpoch := r.value.nonce]
        && unlockEpochOf == old(unlockEpochOf)[r.value.nonce := unlockEpoch]
        && positions == old(positions)[caller := Deposit(old(HoldingsOf(caller)), unlockEpoch, payment.amount)]
        && energy == old(energy)[caller := AddLocked(EntryIn(old(energy), caller, now), payment.amount, unlockEpoch)]
        && currentEpoch == now
      ensures r.Success? ==>
        Weighted(HoldingsOf(caller), now)
          == old(Weighted(HoldingsOf(caller), now)) + PositionEnergy(payment.amount, r.value.unlockEpoch, now)
    {
      if payment.token != baseAssetToken {
        return Failure(InvalidPaymentToken);
      }
      if !IsLockOption(lockOptions, lockEpochs) {
        return Failure(InvalidLockChoice);
      }
      var unlockEpoch := ToStartOfMonth(now + lockEpochs);
      var nonce := PlaceLock(caller, payment.amount, unlockEpoch, now);
      r := Success(LockedTokens(nonce, payment.amount, unlockEpoch));
    }

    /** Unlocks `amount` of the caller's tokens of nonce `nonce` once their
        unlock epoch has been reached. */
    method Unlock(caller: Address, nonce: nat, amount: nat, now: nat) returns (r: Result<nat>)
      requires Valid() && currentEpoch <= now
      modifies this`positions, this`energy, this`currentEpoch
      ensures Valid()
      ensures r.Failure? ==> unchanged(this)
      ensures !old(Holds(caller, nonce)) ==> r == Failure(UnknownPosition)
      ensures old(Holds(caller, nonce)) && amount > old(BalanceOf(caller, nonce)) ==> r == Failure(InsufficientBalance)
      ensures old(Holds(caller, nonce)) && amount <= old(BalanceOf(caller, nonce)) ==>
                if now < old(unlockEpochOf[nonce]) then r == Failure(CannotUnlockYet) else r == Success(amount)
      ensures r.Success? ==>
        var unlockEpoch := old(unlockEpochOf[nonce]);
        && old(Holds(caller, nonce)) && amount <= old(BalanceOf(caller, nonce)) && unlockEpoch <= now
        && positions == old(positions)[caller := Withdraw(old(HoldingsOf(caller)), unlockEpoch, amount)]
        && energy == old(energy)[caller := RemoveLocked(EntryIn(old(energy), caller, now), amount, unlockEpoch)]
        && currentEpoch == now
      ensures r.Success? ==>
        Weighted(HoldingsOf(caller), now)
          == old(Weighted(HoldingsOf(caller), now)) - PositionEnergy(amount, old(unlockEpochOf[nonce]), now)
    {
      if !Holds(caller, nonce) {
        return Failure(UnknownPosition);
      }
      if amount > BalanceOf(caller, nonce) {
        return Failure(InsufficientBalance);
      }
      var unlockEpoch := unlockEpochOf[nonce];
      if now < unlockEpoch {
        return Failure(CannotUnlockYet);
      }
      TakeOut(caller, unlockEpoch, amount, now);
      r := Success(amount);
    }

    /** Why an operation on `amount` tokens of the caller's nonce `nonce` is
        refused, checked in this order; None when the position covers it. */
    function PositionError(caller: Address, nonce: nat, amount: nat): Option<Error>
      reads this`unlockEpochOf, this`positions
    {
      if !Holds(caller, nonce) then Some(UnknownPosition)
      else if amount > BalanceOf(caller, nonce) then Some(InsufficientBalance)
      else None
    }

    /** Exits `amount` of the caller's tokens of nonce `nonce` before their
        unlock epoch: the penalty is charged, its fee share is held for the
        week, and the rest is released after the unbonding delay. */
    method UnlockEarly(caller: Address, nonce: nat, amount: nat, now: nat) returns (r: Result<EarlyExit>)
      requires Valid() && currentEpoch <= now
      modifies this`positions, this`energy, this`currentEpoch, this`unbonding
      modifies this`fees, this`sentToCollector, this`feesCharged
      ensures Valid()
      ensures r.Failure? <==> old(PositionError(caller, nonce, amount)).Some?
      ensures r.Failure? ==> r.error == old(PositionError(caller, nonce, amount)).value && unchanged(this)
      ensures r.Success? ==>
        && old(Holds(caller, nonce)) && amount <= old(BalanceOf(caller, nonce))
        && RemainingEpochs(old(unlockEpochOf[nonce]), now) <= MaxLockEpochs(lockOptions)
        && r.value.penalty == PenaltyAmount(lockOptions, amount, RemainingEpochs(old(unlockEpochOf[nonce]), now), 0).value
        && r.value.received == amount - r.value.penalty
      ensures r.Success? ==>
        var unlockEpoch := old(unlockEpochOf[nonce]);
        var step := AccumulateFees(old(fees), feeShare(r.value.penalty), WeekOf(now));
        && positions == old(positions)[caller := Withdraw(old(HoldingsOf(caller)), unlockEpoch, amount)]
        && energy == old(energy)[caller := RemoveLocked(EntryIn(old(energy), caller, now), amount, unlockEpoch)]
        && unbonding == old(unbonding)[caller := old(UnbondingOf(caller)) + [UnbondEntry(r.value.received, now + unbondEpochs)]]
        && UnbondingOf(caller) == old(UnbondingOf(caller)) + [UnbondEntry(r.value.received, now + unbondEpochs)]
        && fees == step.holding && sentToCollector == old(sentToCollector) + step.toCollector
        && currentEpoch == now
      ensures r.Success? ==>
        Weighted(HoldingsOf(caller), now)
          == old(Weighted(HoldingsOf(caller), now)) - PositionEnergy(amount, old(unlockEpochOf[nonce]), now)
    {
      var error := PositionError(caller, nonce, amount);
      if error.Some? {
        return Failure(error.value);
      }
      var unlockEpoch := unlockEpochOf[nonce];
      HeldEpochBounded(caller, nonce, now);
      var penalty := PenaltyAmount(lockOptions, amount, RemainingEpochs(unlockEpoch, now), 0).value;
      var received := amount - penalty;
      ApplyEarlyExit(caller, unlockEpoch, amount, received, feeShare(penalty), now);
      r := Success(EarlyExit(received, penalty));
    }

    /** Why a reduction is refused, checked in this order; None when it
        goes ahead. */
    function ReduceError(caller: Address, nonce: nat, amount: nat, newLockEpochs: nat, now: nat): Option<Error>
      reads this
    {
      if !Holds(caller, nonce) then Some(UnknownPosition)
      else if amount > BalanceOf(caller, nonce) then Some(InsufficientBalance)
      else if !IsLockOption(lockOptions, newLockEpochs) then Some(InvalidLockChoice)
      else if newLockEpochs >= RemainingEpochs(unlockEpochOf[nonce], now) then Some(NewPeriodNotShorter)
      else None
    }

    /** Moves `amount` of the caller's tokens of nonce `nonce` to the shorter
        option `newLockEpochs`, charging the reduction penalty. */
    method ReduceLockPeriod(caller: Address, nonce: nat, amount: nat, newLockEpochs: nat, now: nat)
      returns (r: Result<LockedTokens>)
      requires Valid() && currentEpoch <= now
      modifies this`nonceOf, this`unlockEpochOf, this`nextNonce, this`positions, this`energy, this`currentEpoch
      modifies this`fees, this`sentToCollector, this`feesCharged
      ensures Valid()
      ensures r.Failure? <==> old(ReduceError(caller, nonce, amount, newLockEpochs, now)).Some?
      ensures r.Failure? ==> r.error == old(ReduceError(caller, nonce, amount, newLockEpochs, now)).value && unchanged(this)
      ensures r.Success? ==>
        && old(Holds(caller, nonce)) && amount <= old(BalanceOf(caller, nonce))
        && newLockEpochs < RemainingEpochs(old(unlockEpochOf[nonce]), now) <= MaxLockEpochs(lockOptions)
      ensures r.Success? ==>
        var unlockEpoch := old(unlockEpochOf[nonce]);
        var penalty := PenaltyAmount(lockOptions, amount, RemainingEpochs(unlockEpoch, now), newLockEpochs).value;
        var newUnlockEpoch := ToStartOfMonth(now + newLockEpochs);
        var step := AccumulateFees(old(fees), feeShare(penalty), WeekOf(now));
        && r.value.amount == amount - penalty
        && r.value.nonce == NonceFor(old(nonceOf), old(nextNonce), newUnlockEpoch)
        && nextNonce == NextNonceAfter(old(nonceOf), old(nextNonce), newUnlockEpoch)
        && r.value.unlockEpoch == newUnlockEpoch
        && nonceOf == old(nonceOf)[newUnlockEpoch := r.value.nonce]
        && unlockEpochOf == old(unlockEpochOf)[r.value.nonce := newUnlockEpoch]
        && positions == old(positions)[caller := Deposit(Withdraw(old(HoldingsOf(caller)), unlockEpoch, amount),
                                                         newUnlockEpoch, r.value.amount)]
        && energy == old(energy)[caller := AddLocked(RemoveLocked(EntryIn(old(energy), caller, now), amount, unlockEpoch),
                                                     r.value.amount, newUnlockEpoch)]
        && fees == step.holding && sentToCollector == old(sentToCollector) + step.toCollector
        && currentEpoch == now
      ensures r.Success? ==>
        Weighted(HoldingsOf(caller), now)
          == old(Weighted(HoldingsOf(caller), now)) - PositionEnergy(amount, old(unlockEpochOf[nonce]), now)
             + PositionEnergy(r.value.amount, r.value.unlockEpoch, now)
    {
      var error := ReduceError(caller, nonce, amount, newLockEpochs, now);
      if error.Some? {
        return Failure(error.value);
      }
      var unlockEpoch := unlockEpochOf[nonce];
      HeldEpochBounded(caller, nonce, now);
      var penalty := PenaltyAmount(lockOptions, amount, RemainingEpochs(unlockEpoch, now), newLockEpochs).value;
      var kept := amount - penalty;
      var newUnlockEpoch := ToStartOfMonth(now + newLockEpochs);
      var locked := ApplyReduction(caller, unlockEpoch, amount, kept, newUnlockEpoch, feeShare(penalty), now);
      r := Success(locked);
    }

    /** Moves `amount` of the caller's tokens of nonce `nonce` to the option
        `newLockEpochs`, which must unlock strictly later; no penalty. */
    method ExtendLockPeriod(caller: Address, nonce: nat, amount: nat, newLockEpochs: nat, now: nat)
      returns (r: Result<LockedTokens>)
      requires Valid() && currentEpoch <= now
      modifies this`nonceOf, this`unlockEpochOf, this`nextNonce, this`positions, this`energy, this`currentEpoch
      ensures Valid()
      ensures r.Failure? ==> unchanged(this)
      ensures !old(Holds(caller, nonce)) ==> r == Failure(UnknownPosition)
      ensures old(Holds(caller, nonce)) && amount > old(BalanceOf(caller, nonce)) ==> r == Failure(InsufficientBalance)
      ensures old(Holds(caller, nonce)) && amount <= old(BalanceOf(caller, nonce)) ==>
                if !IsLockOption(lockOptions, newLockEpochs) then r == Failure(InvalidLockChoice)
                else if ToStartOfMonth(now + newLockEpochs) <= old(unlockEpochOf[nonce]) then r == Failure(NewPeriodNotLonger)
                else r.Success?
      ensures r.Success? ==>
        && old(Holds(caller, nonce)) && amount <= old(BalanceOf(caller, nonce))
        && IsLockOption(lockOptions, newLockEpochs)
        && old(unlockEpochOf[nonce]) < ToStartOfMonth(now + newLockEpochs)
      ensures r.Success? ==>
        var unlockEpoch := old(unlockEpochOf[nonce]);
        var newUnlockEpoch := ToStartOfMonth(now + newLockEpochs);
        && r.value == LockedTokens(NonceFor(old(nonceOf), old(nextNonce), newUnlockEpoch), amount, newUnlockEpoch)
        && nextNonce == NextNonceAfter(old(nonceOf), old(nextNonce), newUnlockEpoch)
        && nonceOf == old(nonceOf)[newUnlockEpoch := r.value.nonce]
        && unlockEpochOf == old(unlockEpochOf)[r.value.nonce := newUnlockEpoch]
        && positions == old(positions)[caller := Deposit(Withdraw(old(HoldingsOf(caller)), unlockEpoch, amount),
                                                         newUnlockEpoch, amount)]
        && energy == old(energy)[caller := AddLocked(RemoveLocked(EntryIn(old(energy), caller, now), amount, unlockEpoch),
                                                     amount, newUnlockEpoch)]
        && currentEpoch == now
      ensures r.Success? ==>
        Weighted(HoldingsOf(caller), now)
          == old(Weighted(HoldingsOf(caller), now)) + amount * (r.value.unlockEpoch - old(unlockEpochOf[nonce]))
    {
      if !Holds(caller, nonce) {
        return Failure(UnknownPosition);
      }
      if amount > BalanceOf(caller, nonce) {
        return Failure(InsufficientBalance);
      }
      if !IsLockOption(lockOptions, newLockEpochs) {
        return Failure(InvalidLockChoice);
      }
      var unlockEpoch := unlockEpochOf[nonce];
      var newUnlockEpoch := ToStartOfMonth(now + newLockEpochs);
      if newUnlockEpoch <= unlockEpoch {
        return Failure(NewPeriodNotLonger);
      }
      assert PositionEnergy(amount, newUnlockEpoch, now) - PositionEnergy(amount, unlockEpoch, now)
          == amount * (newUnlockEpoch - unlockEpoch);
      var newNonce := Relock(caller, unlockEpoch, amount, amount, newUnlockEpoch, now);
      r := Success(LockedTokens(newNonce, amount, newUnlockEpoch));
    }

    /** Pays out every unbonding entry of the caller's whose delay has passed
        at `now`; the others keep waiting, in order. The clock moves to `now`. */
    method ClaimUnlockedTokens(caller: Address, now: nat) returns (claimed: nat)
      requires Valid() && currentEpoch <= now
      modifies this`unbonding, this`currentEpoch
      ensures Valid()
      ensures currentEpoch == now
      ensures claimed == ClaimableAmount(old(UnbondingOf(caller)), now)
      ensures unbonding == old(unbonding)[caller := StillUnbonding(old(UnbondingOf(caller)), now)]
    {
      var entries := UnbondingOf(caller);
      var rest: seq<UnbondEntry> := [];
      claimed := 0;
      var i := 0;
      while i < |entries|
        invariant 0 <= i <= |entries|
        invariant claimed == ClaimableAmount(entries[..i], now)
        invariant rest == StillUnbonding(entries[..i], now)
      {
        assert entries[..i + 1][..i] == entries[..i];
        if entries[i].claimableEpoch <= now {
          claimed := claimed + entries[i].amount;
        } else {
          rest := rest + [entries[i]];
        }
        i := i + 1;
      }
      assert entries[..|entries|] == entries;
      unbonding := unbonding[caller := rest];
      currentEpoch := now;
    }
  }
}
