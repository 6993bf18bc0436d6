/** Unbonding: the tokens an early exit releases become claimable by the
    holder only after a fixed number of epochs. */
module Unbonding {

  datatype UnbondEntry = UnbondEntry(amount: nat, claimableEpoch: nat)

  /** Everything waiting in `entries`. */
  function PendingAmount(entries: seq<UnbondEntry>): nat
    decreases |entries|
  {
    if entries == [] then 0
    else PendingAmount(entries[..|entries| - 1]) + entries[|entries| - 1].amount
  }

  /** The part of `entries` that can be claimed at `now`. */
  function ClaimableAmount(entries: seq<UnbondEntry>, now: nat): nat
    decreases |entries|
  {
    if entries == [] then 0
    else
      var last := entries[|entries| - 1];
      ClaimableAmount(entries[..|entries| - 1], now) + (if last.claimableEpoch <= now then last.amount else 0)
  }

  /** The entries still waiting after a claim at `now`, in their order. */
  function StillUnbonding(entries: seq<UnbondEntry>, now: nat): (rest: seq<UnbondEntry>)
    ensures forall i :: 0 <= i < |rest| ==> rest[i].claimableEpoch > now && rest[i] in entries
    decreases |entries|
  {
    if entries == [] then []
    else
      var last := entries[|entries| - 1];
      StillUnbonding(entries[..|entries| - 1], now) + (if last.claimableEpoch <= now then [] else [last])
  }

  lemma PendingAppend(entries: seq<UnbondEntry>, more: seq<UnbondEntry>)
    ensures PendingAmount(entries + more) == PendingAmount(entries) + PendingAmount(more)
    decreases |more|
  {
    if more != [] {
      var all := entries + more;
      assert all[..|all| - 1] == entries + more[..|more| - 1];
      PendingAppend(entries, more[..|more| - 1]);
    } else {
      assert entries + more == entries;
    }
  }

  /** A claim splits the pending tokens exactly: nothing is lost or paid twice. */
  lemma {:induction false} ClaimConserves(entries: seq<UnbondEntry>, now: nat)
    ensures ClaimableAmount(entries, now) + PendingAmount(StillUnbonding(entries, now)) == PendingAmount(entries)
    decreases |entries|
  {
    if entries != [] {
      var init, last := entries[..|entries| - 1], entries[|entries| - 1];
      ClaimConserves(init, now);
      var tail := if last.claimableEpoch <= now then [] else [last];
      PendingAppend(StillUnbonding(init, now), tail);
      assert PendingAmount(tail) == (if last.claimableEpoch <= now then 0 else last.amount) by {
        if tail != [] { assert tail[..0] == []; }
      }
    }
  }

  /** Once every entry's delay has passed, a claim pays out everything. */
  lemma {:induction false} ClaimAfterDelayPaysAll(entries: seq<UnbondEntry>, now: nat)
    requires forall i :: 0 <= i < |entries| ==> entries[i].claimableEpoch <= now
    ensures ClaimableAmount(entries, now) == PendingAmount(entries)
    ensures StillUnbonding(entries, now) == []
    decreases |entries|
  {
    if entries != [] {
      ClaimAfterDelayPaysAll(entries[..|entries| - 1], now);
    }
  }
}
