/** generateInsightMessage: a one-line summary of the fleet, chosen by an ordered chain of
    ratio tests. A floating-point test `count / total > num / den` is written as the exact
    cross-multiplication `den * count > num * total`; with total = 0 every count is 0, the
    source's 0 / 0 is NaN, and both forms are false. */
module Insight {
  import opened CargoRecord

  const DELAY_WARNING: string := "\U{26A0}\U{FE0F} Many shipments are experiencing delays."
  const RUNNING_SMOOTHLY: string := "\U{2705} Most shipments are running smoothly!"
  const MOSTLY_IN_TRANSIT: string := "\U{1F4E6} A lot of cargo is currently in transit."
  const IN_MOTION: string := "\U{1F504} Shipment activity is in motion."

  /** count / total > num / den, for den > 0. */
  predicate RatioAbove(count: nat, total: nat, num: nat, den: nat) {
    den * count > num * total
  }

  predicate ManyDelayed(items: seq<Cargo>) {
    RatioAbove(CountStatus(items, DELAYED), |items|, 4, 10)
  }

  predicate MostlyOnTime(items: seq<Cargo>) {
    RatioAbove(CountOnTimeOrDelivered(items), |items|, 8, 10)
  }

  predicate MostlyInTransit(items: seq<Cargo>) {
    RatioAbove(CountStatus(items, IN_TRANSIT), |items|, 5, 10)
  }

  function InsightMessage(items: seq<Cargo>): (message: string)
    ensures message in {DELAY_WARNING, RUNNING_SMOOTHLY, MOSTLY_IN_TRANSIT, IN_MOTION}
  {
    if ManyDelayed(items) then DELAY_WARNING
    else if MostlyOnTime(items) then RUNNING_SMOOTHLY
    else if MostlyInTransit(items) then MOSTLY_IN_TRANSIT
    else IN_MOTION
  }

  /** The four messages are pairwise different, so each one identifies its branch. */
  lemma MessagesDistinct()
    ensures DELAY_WARNING != RUNNING_SMOOTHLY && DELAY_WARNING != MOSTLY_IN_TRANSIT
    ensures DELAY_WARNING != IN_MOTION && RUNNING_SMOOTHLY != MOSTLY_IN_TRANSIT
    ensures RUNNING_SMOOTHLY != IN_MOTION && MOSTLY_IN_TRANSIT != IN_MOTION
  {
    assert DELAY_WARNING[0] != RUNNING_SMOOTHLY[0];
    assert DELAY_WARNING[0] != MOSTLY_IN_TRANSIT[0];
    assert DELAY_WARNING[0] != IN_MOTION[0];
    assert RUNNING_SMOOTHLY[0] != MOSTLY_IN_TRANSIT[0];
    assert RUNNING_SMOOTHLY[0] != IN_MOTION[0];
    assert MOSTLY_IN_TRANSIT[0] != IN_MOTION[0];
  }

  /** The delay warning is given exactly when more than 40% of the records are delayed,
      whatever the other counts; exactly 40% is not enough. */
  lemma DelayWarningIff(items: seq<Cargo>)
    ensures InsightMessage(items) == DELAY_WARNING <==> 10 * CountStatus(items, DELAYED) > 4 * |items|
  {
    MessagesDistinct();
    var m := InsightMessage(items);
    if !ManyDelayed(items) {
      assert m in {RUNNING_SMOOTHLY, MOSTLY_IN_TRANSIT, IN_MOTION};
    }
  }

  /** "Running smoothly" exactly when at most 40% are delayed and more than 80% are on time or
      delivered. */
  lemma RunningSmoothlyIff(items: seq<Cargo>)
    ensures InsightMessage(items) == RUNNING_SMOOTHLY <==>
      10 * CountStatus(items, DELAYED) <= 4 * |items| && 10 * CountOnTimeOrDelivered(items) > 8 * |items|
  {
    MessagesDistinct();
    var m := InsightMessage(items);
    if ManyDelayed(items) {
      assert m == DELAY_WARNING;
    } else if !MostlyOnTime(items) {
      assert m in {MOSTLY_IN_TRANSIT, IN_MOTION};
    }
  }

  /** The in-transit message exactly when both earlier tests fail and more than half are in
      transit. */
  lemma MostlyInTransitIff(items: seq<Cargo>)
    ensures InsightMessage(items) == MOSTLY_IN_TRANSIT <==>
      && 10 * CountStatus(items, DELAYED) <= 4 * |items|
      && 10 * CountOnTimeOrDelivered(items) <= 8 * |items|
      && 10 * CountStatus(items, IN_TRANSIT) > 5 * |items|
  {
    MessagesDistinct();
    var m := InsightMessage(items);
    if ManyDelayed(items) {
      assert m == DELAY_WARNING;
    } else if MostlyOnTime(items) {
      assert m == RUNNING_SMOOTHLY;
    } else {
      assert m == MOSTLY_IN_TRANSIT <==> MostlyInTransit(items);
    }
  }

  /** An empty list gives the default message, since no ratio test passes. */
  lemma EmptyIsInMotion()
    ensures InsightMessage([]) == IN_MOTION
  {
  }

  /** Exactly 40% delayed does not trigger the warning (the comparison is strict). */
  lemma ExactlyFortyPercentIsNoWarning(items: seq<Cargo>)
    requires 10 * CountStatus(items, DELAYED) == 4 * |items|
    ensures InsightMessage(items) != DELAY_WARNING
  {
    DelayWarningIff(items);
  }
}
