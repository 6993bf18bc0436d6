/** The weekly fee holding: penalty fees charged during a week stay with the
    contract and are forwarded to the fee collector only once a later week is
    reached. */
module WeeklyFees {

  /** The fees the contract holds, and the week they were charged in. */
  datatype FeeHolding = FeeHolding(week: nat, held: nat)

  /** The holding after a fee arrives, and the amount forwarded to the collector. */
  datatype FeeStep = FeeStep(holding: FeeHolding, toCollector: nat)

  /** A fee of `fees` charged in `currentWeek`. In the holding's own week it is
      added to the holding; in a later week the holding and the new fee are
      forwarded together and the holding starts over, empty, in the new week. */
  function AccumulateFees(h: FeeHolding, fees: nat, currentWeek: nat): (s: FeeStep)
    ensures s.holding.held + s.toCollector == h.held + fees
    ensures s.toCollector > 0 ==> currentWeek > h.week
    ensures currentWeek > h.week ==> s.holding == FeeHolding(currentWeek, 0)
    ensures currentWeek <= h.week ==> s.holding.week == h.week
  {
    if currentWeek > h.week then FeeStep(FeeHolding(currentWeek, 0), h.held + fees)
    else FeeStep(FeeHolding(h.week, h.held + fees), 0)
  }

  /** A fee and the week it is charged in. */
  datatype FeeEvent = FeeEvent(fees: nat, week: nat)

  /** The holding after a series of fees, and everything forwarded meanwhile. */
  function RunFees(h: FeeHolding, events: seq<FeeEvent>): FeeStep
    decreases |events|
  {
    if events == [] then FeeStep(h, 0)
    else
      var first := AccumulateFees(h, events[0].fees, events[0].week);
      var rest := RunFees(first.holding, events[1..]);
      FeeStep(rest.holding, first.toCollector + rest.toCollector)
  }

  function SumFees(events: seq<FeeEvent>): nat
    decreases |events|
  {
    if events == [] then 0 else events[0].fees + SumFees(events[1..])
  }

  /** No fee is lost or created: what is held plus what was forwarded is what
      was charged. */
  lemma {:induction false} FeesConserved(h: FeeHolding, events: seq<FeeEvent>)
    ensures RunFees(h, events).holding.held + RunFees(h, events).toCollector == h.held + SumFees(events)
    decreases |events|
  {
    if events != [] {
      FeesConserved(AccumulateFees(h, events[0].fees, events[0].week).holding, events[1..]);
    }
  }

  /** While the week is open nothing reaches the collector: every fee is held. */
  lemma {:induction false} OpenWeekForwardsNothing(h: FeeHolding, events: seq<FeeEvent>)
    requires forall i :: 0 <= i < |events| ==> events[i].week <= h.week
    ensures RunFees(h, events) == FeeStep(FeeHolding(h.week, h.held + SumFees(events)), 0)
    decreases |events|
  {
    if events != [] {
      OpenWeekForwardsNothing(AccumulateFees(h, events[0].fees, events[0].week).holding, events[1..]);
    }
  }

  /** Reaching a later week forwards exactly once: the first fee of the new week
      carries the old holding to the collector, and later fees of that week are
      held again. */
  lemma CrossingForwardsOnce(h: FeeHolding, fees: nat, week: nat, later: seq<FeeEvent>)
    requires week > h.week
    requires forall i :: 0 <= i < |later| ==> later[i].week == week
    ensures RunFees(h, [FeeEvent(fees, week)] + later)
         == FeeStep(FeeHolding(week, SumFees(later)), h.held + fees)
  {
    var events := [FeeEvent(fees, week)] + later;
    assert events[1..] == later;
    OpenWeekForwardsNothing(FeeHolding(week, 0), later);
  }

  /** Within an open week, two fees are held exactly as one fee of their sum. */
  lemma SameWeekBatching(h: FeeHolding, a: nat, b: nat, week: nat)
    requires week <= h.week
    ensures AccumulateFees(AccumulateFees(h, a, week).holding, b, week) == AccumulateFees(h, a + b, week)
  {
  }
}
