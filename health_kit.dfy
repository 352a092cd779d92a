/** `HealthKitManager`: today's step count and active calories, fetched as a
    two-query join, and the last week's daily step counts. Authorization, the
    statistics queries and their completions are events; each completion's
    value is the query's sum, or `None` when the query returned no result or no
    sum. Every state write runs on the main queue, so the events are sequential. */
module HealthKit {
  import opened Basics

  /** The two queries `fetchTodaysData` joins. */
  datatype Leaf = StepsLeaf | CaloriesLeaf

  /** The per-bucket step counts of a weekly query: a bucket without a sum counts 0. */
  method WeeklyData(buckets: seq<Option<int>>) returns (data: seq<int>)
    ensures |data| == |buckets|
    ensures forall i :: 0 <= i < |buckets| ==> data[i] == buckets[i].GetOr(0)
  {
    data := [];
    for i := 0 to |buckets|
      invariant |data| == i
      invariant forall k :: 0 <= k < i ==> data[k] == buckets[k].GetOr(0)
    {
      data := data + [buckets[i].GetOr(0)];
    }
  }

  class HealthKitManager {
    var stepCount: int
    var caloriesBurned: int
    var weeklySteps: seq<int>
    var isAuthorized: bool
    var isLoading: bool
    /** The authorization request is out and its callback has not run. */
    var authorizationPending: bool
    /** For each `fetchTodaysData` call still waiting, the queries not yet completed. */
    var pending: map<nat, set<Leaf>>
    /** Joins whose queries have all completed and whose `notify` block is queued. */
    var notifying: set<nat>
    var nextGroup: nat
    /** Weekly queries whose results have not arrived. */
    var weeklyQueries: nat

    /** `isLoading` is only up while some join is still waiting for a query or
        for its `notify` block; a join waiting for queries has one outstanding,
        and a join is never waiting for both. */
    ghost predicate Valid()
      reads this
    {
      && (isLoading ==> pending != map[] || notifying != {})
      && (forall g :: g in pending ==> g < nextGroup && pending[g] != {})
      && (forall g :: g in notifying ==> g < nextGroup && g !in pending)
    }

    /** `init()`: zero counts, seven zero days, not authorized, not loading; the
        authorization request goes out only when health data is available. */
    constructor (healthDataAvailable: bool)
      ensures Valid()
      ensures stepCount == 0 && caloriesBurned == 0 && weeklySteps == [0, 0, 0, 0, 0, 0, 0]
      ensures !isAuthorized && !isLoading
      ensures authorizationPending == healthDataAvailable
      ensures pending == map[] && notifying == {} && weeklyQueries == 0
    {
      stepCount, caloriesBurned := 0, 0;
      weeklySteps := [0, 0, 0, 0, 0, 0, 0];
      isAuthorized, isLoading := false, false;
      authorizationPending := healthDataAvailable;
      pending, notifying, nextGroup, weeklyQueries := map[], {}, 0, 0;
    }

    /** The authorization callback: `isAuthorized` takes the result, and only a
        success starts both fetches. */
    method OnAuthorization(success: bool) returns (todayGroup: Option<nat>, weeklyIssued: bool)
      requires Valid() && authorizationPending
      modifies this
      ensures Valid()
      ensures isAuthorized == success && !authorizationPending
      ensures !success ==> todayGroup.None? && !weeklyIssued
                           && pending == old(pending) && isLoading == old(isLoading)
                           && weeklyQueries == old(weeklyQueries)
      ensures success ==> todayGroup == Some(old(nextGroup)) && weeklyIssued && isLoading
                          && pending == old(pending)[old(nextGroup) := {StepsLeaf, CaloriesLeaf}]
                          && weeklyQueries == old(weeklyQueries) + 1
      ensures stepCount == old(stepCount) && caloriesBurned == old(caloriesBurned)
      ensures weeklySteps == old(weeklySteps) && notifying == old(notifying)
    {
      authorizationPending := false;
      isAuthorized := success;
      todayGroup, weeklyIssued := None, false;
      if success {
        todayGroup := FetchTodaysData();
        weeklyIssued := FetchWeeklySteps();
      }
    }

    /** `fetchTodaysData()`: nothing without authorization; otherwise `isLoading`
        rises and both queries go out as one new join. */
    method FetchTodaysData() returns (group: Option<nat>)
      requires Valid()
      modifies this`isLoading, this`pending, this`nextGroup
      ensures Valid()
      ensures !isAuthorized ==> group.None? && isLoading == old(isLoading)
                                && pending == old(pending) && nextGroup == old(nextGroup)
      ensures isAuthorized ==> group == Some(old(nextGroup)) && isLoading
                               && pending == old(pending)[old(nextGroup) := {StepsLeaf, CaloriesLeaf}]
                               && nextGroup == old(nextGroup) + 1
    {
      if !isAuthorized {
        return None;
      }
      isLoading := true;
      group := Some(nextGroup);
      pending := pending[nextGroup := {StepsLeaf, CaloriesLeaf}];
      assert nextGroup in pending;
      nextGroup := nextGroup + 1;
    }

    /** One query of join `group` completes with `sum`: it writes its own field
        only, a missing sum as 0; the join's last completion (`leave`) queues the
        `notify` block. `isLoading` is left alone. */
    method OnLeafCompleted(group: nat, leaf: Leaf, sum: Option<int>)
      requires Valid() && group in pending && leaf in pending[group]
      modifies this`stepCount, this`caloriesBurned, this`pending, this`notifying
      ensures Valid()
      ensures isLoading == old(isLoading)
      ensures leaf == StepsLeaf ==> stepCount == sum.GetOr(0) && caloriesBurned == old(caloriesBurned)
      ensures leaf == CaloriesLeaf ==> caloriesBurned == sum.GetOr(0) && stepCount == old(stepCount)
      ensures old(pending)[group] == {leaf} ==>
                pending == old(pending) - {group} && notifying == old(notifying) + {group}
      ensures old(pending)[group] != {leaf} ==>
                pending == old(pending)[group := old(pending)[group] - {leaf}] && notifying == old(notifying)
    {
      if leaf == StepsLeaf {
        stepCount := sum.GetOr(0);
      } else {
        caloriesBurned := sum.GetOr(0);
      }
      var left := pending[group] - {leaf};
      if left == {} {
        pending := pending - {group};
        notifying := notifying + {group};
      } else {
        pending := pending[group := left];
      }
    }

    /** The `notify` block of join `group` runs on the main queue: `isLoading`
        falls, whether or not another join started meanwhile. */
    method OnGroupNotified(group: nat)
      requires Valid() && group in notifying
      modifies this`isLoading, this`notifying
      ensures Valid()
      ensures !isLoading && notifying == old(notifying) - {group}
    {
      notifying := notifying - {group};
      isLoading := false;
    }

    /** `fetchWeeklySteps()`: issues the weekly query only when authorized. */
    method FetchWeeklySteps() returns (issued: bool)
      modifies this`weeklyQueries
      ensures issued == isAuthorized
      ensures weeklyQueries == if issued then old(weeklyQueries) + 1 else old(weeklyQueries)
    {
      issued := isAuthorized;
      if issued {
        weeklyQueries := weeklyQueries + 1;
      }
    }

    /** The weekly query's results: none leaves `weeklySteps` as it was; otherwise
        it is replaced by one count per bucket, in order, however many there are. */
    method OnWeeklyResults(results: Option<seq<Option<int>>>)
      requires weeklyQueries > 0
      modifies this`weeklySteps, this`weeklyQueries
      ensures weeklyQueries == old(weeklyQueries) - 1
      ensures results.None? ==> weeklySteps == old(weeklySteps)
      ensures results.Some? ==>
                && |weeklySteps| == |results.value|
                && forall i :: 0 <= i < |results.value| ==> weeklySteps[i] == results.value[i].GetOr(0)
    {
      weeklyQueries := weeklyQueries - 1;
      if results.None? {
        return;
      }
      weeklySteps := WeeklyData(results.value);
    }
  }

  /** The join clears `isLoading` only once both queries have completed, in
      either order, and its `notify` block has run. */
  method JoinInEitherOrder(hk: HealthKitManager, first: Leaf, steps: Option<int>, calories: Option<int>)
    requires hk.Valid() && hk.isAuthorized
    modifies hk
  {
    var group := hk.FetchTodaysData();
    var second := if first == StepsLeaf then CaloriesLeaf else StepsLeaf;
    hk.OnLeafCompleted(group.value, first, if first == StepsLeaf then steps else calories);
    assert hk.isLoading;
    hk.OnLeafCompleted(group.value, second, if second == StepsLeaf then steps else calories);
    assert hk.isLoading;
    hk.OnGroupNotified(group.value);
    assert !hk.isLoading;
    assert hk.stepCount == steps.GetOr(0) && hk.caloriesBurned == calories.GetOr(0);
  }

  /** A second `fetchTodaysData` that runs after the first join's last query but
      before its `notify` block: that block still clears `isLoading` while the
      second join's queries are outstanding. */
  method FetchBeforeNotify(hk: HealthKitManager)
    requires hk.Valid() && hk.isAuthorized
    modifies hk
  {
    var first := hk.FetchTodaysData();
    hk.OnLeafCompleted(first.value, StepsLeaf, Some(10));
    hk.OnLeafCompleted(first.value, CaloriesLeaf, Some(20));
    var next := hk.FetchTodaysData();
    hk.OnGroupNotified(first.value);
    assert !hk.isLoading && next.value in hk.pending && hk.pending[next.value] == {StepsLeaf, CaloriesLeaf};
  }

  /** Buckets without a sum read as 0, and a short week stays short. */
  method WeeklyExample(hk: HealthKitManager)
    requires hk.isAuthorized
    modifies hk
  {
    var issued := hk.FetchWeeklySteps();
    hk.OnWeeklyResults(Some([Some(3), None, Some(5), Some(2), None, None, Some(7)]));
    assert hk.weeklySteps == [3, 0, 5, 2, 0, 0, 7];
    issued := hk.FetchWeeklySteps();
    hk.OnWeeklyResults(Some([Some(4), None]));
    assert hk.weeklySteps == [4, 0];
    issued := hk.FetchWeeklySteps();
    hk.OnWeeklyResults(None);
    assert hk.weeklySteps == [4, 0];
  }
}
