/** The health manager: today's water total and the handle of the most recent
    own entry, refreshed from the store, and the add and undo operations that
    write to it. `today` is the instant the current day starts
    (`Date.startOfToday`) and `now` the current instant (`Date()`). */
module HealthKit {
  import opened Wrappers
  import opened Uuids
  import opened HealthStore

  /** The amount one tap on "Add" records, in ml. */
  const WaterPerTap: nat := 500

  /** The total the main screen shows: `consumption[.startOfToday] ?? 0`. */
  function DisplayedTotal(consumption: map<int, nat>, today: int): (shown: nat)
    ensures today in consumption ==> shown == consumption[today]
    ensures today !in consumption ==> shown == 0
  {
    if today in consumption then consumption[today] else 0
  }

  /** The handle after `fetchMostRecentWater()`: the latest own-source sample
      of the window when the query succeeds and finds one, the old handle
      otherwise. */
  function Refreshed(handle: Option<Sample>, samples: seq<Sample>, today: int, now: int, fails: bool): (r: Option<Sample>)
    ensures r.Some? ==> r == handle || (r.value in samples && IsCandidate(r.value, today, now))
    ensures handle.Some? ==> r.Some?
    ensures !fails && (exists t :: t in samples && IsCandidate(t, today, now)) ==>
      r.Some? && r.value in samples && IsCandidate(r.value, today, now)
      && forall t :: t in samples && IsCandidate(t, today, now) ==> t.endDate <= r.value.endDate
    ensures fails ==> r == handle
  {
    if !fails && Latest(samples, today, now).Some? then Latest(samples, today, now) else handle
  }

  /** A handle drawn before `next` that is either stored in `samples` or
      shares its UUID with no stored sample. */
  ghost predicate HandleValid(handle: Sample, samples: seq<Sample>, next: nat)
  {
    && handle.id < next
    && (handle in samples || forall k :: 0 <= k < |samples| ==> samples[k].id != handle.id)
  }

  /** `HealthKitManager`. */
  class HealthKitManager {
    const healthStore: Store
    /** Where the UUIDs of new samples come from. */
    const uuids: UuidSource
    /** `consumption`: the day total per start-of-day instant. */
    var consumption: map<int, nat>
    /** `mostRecentWater`: the sample an undo deletes. */
    var mostRecentWater: Option<Sample>

    /** Sample UUIDs are unique, and every one is older than the next new one.
        The handle, when set, names an identifier drawn earlier, and it is
        either a stored sample or no stored sample carries its UUID. */
    ghost predicate Valid()
      reads this, healthStore, uuids
    {
      && UniqueIds(healthStore.samples) && IdsBelow(healthStore.samples, uuids.next)
      && (mostRecentWater.Some? ==> HandleValid(mostRecentWater.value, healthStore.samples, uuids.next))
    }

    /** The fields as `init()` sets them, before its startup task runs. */
    constructor (store: Store, uuids: UuidSource)
      requires UniqueIds(store.samples) && IdsBelow(store.samples, uuids.next)
      ensures Valid()
      ensures healthStore == store && this.uuids == uuids
      ensures consumption == map[] && mostRecentWater == None
    {
      healthStore := store;
      this.uuids := uuids;
      consumption := map[];
      mostRecentWater := None;
    }

    /** The task `init()` starts: when health data is available, request
        authorization (an error is fatal), then refresh the total and the most
        recent entry. */
    method Startup(available: bool, authorizationFails: bool, today: int, now: int,
                   statisticsFails: bool, sampleFails: bool) returns (outcome: Outcome)
      requires Valid()
      modifies this`consumption, this`mostRecentWater
      ensures Valid()
      ensures outcome == (if available && authorizationFails then Aborted else Done)
      ensures !available || authorizationFails ==>
        consumption == old(consumption) && mostRecentWater == old(mostRecentWater)
      ensures available && !authorizationFails && statisticsFails ==> consumption == old(consumption)
      ensures available && !authorizationFails && !statisticsFails ==>
        && consumption - {today} == old(consumption) - {today}
        && (today in consumption <==> exists k :: 0 <= k < |healthStore.samples| && InWindow(healthStore.samples[k], today, now))
        && DisplayedTotal(consumption, today) == Sum(healthStore.samples, today, now)
      ensures available && !authorizationFails ==>
        mostRecentWater == Refreshed(old(mostRecentWater), healthStore.samples, today, now, sampleFails)
    {
      if available {
        if authorizationFails {
          return Aborted;
        }
        FetchTodayWater(today, now, statisticsFails);
        FetchMostRecentWater(today, now, sampleFails);
      }
      return Done;
    }

    /** `fetchTodayWater()`. On an error nothing changes; otherwise the entry
        for `today` becomes the day's sum over every source, or is removed when
        the statistics carry no sum. No other day's entry changes. */
    method FetchTodayWater(today: int, now: int, fails: bool)
      modifies this`consumption
      ensures fails ==> consumption == old(consumption)
      ensures !fails ==> consumption - {today} == old(consumption) - {today}
      ensures !fails ==>
        (today in consumption <==> exists k :: 0 <= k < |healthStore.samples| && InWindow(healthStore.samples[k], today, now))
      ensures !fails ==> DisplayedTotal(consumption, today) == Sum(healthStore.samples, today, now)
    {
      var result := healthStore.ExecuteStatisticsQuery(today, now, fails);
      match result
      case QueryFailed =>
        return;
      case Statistics(sum) =>
        match sum
        case Some(ml) => consumption := consumption[today := ml];
        case None => consumption := consumption - {today};
    }

    /** `fetchMostRecentWater()`. A non-empty result replaces the handle with
        the latest own-source sample of the window; an error or an empty result
        leaves the handle as it was, so it never becomes `nil` again. */
    method FetchMostRecentWater(today: int, now: int, fails: bool)
      modifies this`mostRecentWater
      ensures fails || Latest(healthStore.samples, today, now).None? ==> mostRecentWater == old(mostRecentWater)
      ensures !fails && Latest(healthStore.samples, today, now).Some? ==>
        mostRecentWater == Latest(healthStore.samples, today, now)
      ensures old(mostRecentWater).Some? ==> mostRecentWater.Some?
      ensures mostRecentWater == Refreshed(old(mostRecentWater), healthStore.samples, today, now, fails)
    {
      var result := healthStore.ExecuteSampleQuery(today, now, fails);
      if result.SampleQueryFailed? {
        return;
      }
      if result.results == [] {
        return;
      }
      var water := result.results[0];
      mostRecentWater := Some(water);
    }

    /** `addTodayWater()`: saves one new own-source sample of 500 ml starting
        and ending now; a save error is fatal. The total and the handle are not
        touched. */
    method AddTodayWater(now: int, fails: bool) returns (outcome: Outcome)
      requires Valid()
      modifies healthStore, uuids
      ensures Valid()
      ensures outcome == (if fails then Aborted else Done)
      ensures !fails ==> healthStore.samples == old(healthStore.samples) + [Sample(old(uuids.next), WaterPerTap, now, now, true)]
      ensures fails ==> healthStore.samples == old(healthStore.samples)
      ensures uuids.next == old(uuids.next) + 1
    {
      var id := uuids.Fresh();
      var water := Sample(id, WaterPerTap, now, now, true);
      var saved := healthStore.Save(water, fails);
      if !saved {
        return Aborted;
      }
      assert healthStore.samples == old(healthStore.samples) + [water];
      forall k | 0 <= k < |old(healthStore.samples)| ensures healthStore.samples[k].id < id {
        assert healthStore.samples[k] == old(healthStore.samples)[k];
      }
      return Done;
    }

    /** `removeTodayWater()`: with no handle, nothing happens; otherwise the
        handle's sample is deleted, and a delete error is fatal. The total and
        the handle are not touched. */
    method RemoveTodayWater(fails: bool) returns (outcome: Outcome)
      requires Valid()
      modifies healthStore
      ensures Valid()
      ensures mostRecentWater.None? ==> outcome == Done && healthStore.samples == old(healthStore.samples)
      ensures mostRecentWater.Some? ==> outcome == (if fails then Aborted else Done)
      ensures mostRecentWater.Some? && !fails ==>
        healthStore.samples == RemoveId(old(healthStore.samples), mostRecentWater.value.id)
      ensures mostRecentWater.Some? && fails ==> healthStore.samples == old(healthStore.samples)
      ensures mostRecentWater.Some? && !fails
              && (forall k :: 0 <= k < |old(healthStore.samples)| ==> old(healthStore.samples)[k].id != mostRecentWater.value.id) ==>
        healthStore.samples == old(healthStore.samples)
    {
      if mostRecentWater == None {
        return Done;
      }
      RemoveIdKeepsUnique(healthStore.samples, mostRecentWater.value.id);
      RemoveIdKeepsBound(healthStore.samples, mostRecentWater.value.id, uuids.next);
      var deleted := healthStore.Delete(mostRecentWater.value, fails);
      if !deleted {
        return Aborted;
      }
      return Done;
    }

    /** The "Add" button: add, then refresh the total, then the handle. With
        no failure, the total shown rises by exactly 500 ml over the sum before
        the tap, and the handle points at an own sample ending no earlier than
        `now`. */
    method AddButton(today: int, now: int, saveFails: bool, statisticsFails: bool, sampleFails: bool)
      returns (outcome: Outcome)
      requires Valid()
      modifies healthStore, uuids, this`consumption, this`mostRecentWater
      ensures Valid()
      ensures outcome == (if saveFails then Aborted else Done)
      ensures uuids.next == old(uuids.next) + 1
      ensures saveFails ==>
        && healthStore.samples == old(healthStore.samples)
        && consumption == old(consumption) && mostRecentWater == old(mostRecentWater)
      ensures !saveFails ==>
        healthStore.samples == old(healthStore.samples) + [Sample(old(uuids.next), WaterPerTap, now, now, true)]
      ensures !saveFails && statisticsFails ==> consumption == old(consumption)
      ensures !saveFails && !statisticsFails ==>
        && consumption - {today} == old(consumption) - {today}
        && (today in consumption <==> exists k :: 0 <= k < |healthStore.samples| && InWindow(healthStore.samples[k], today, now))
        && DisplayedTotal(consumption, today) == Sum(healthStore.samples, today, now)
      ensures !saveFails ==>
        mostRecentWater == Refreshed(old(mostRecentWater), healthStore.samples, today, now, sampleFails)
      ensures today <= now && !saveFails && !statisticsFails ==>
        DisplayedTotal(consumption, today) == old(Sum(healthStore.samples, today, now)) + WaterPerTap
      ensures today <= now && !saveFails && !sampleFails ==>
        mostRecentWater.Some? && mostRecentWater.value.ownSource && mostRecentWater.value.endDate >= now
    {
      ghost var before := healthStore.samples;
      outcome := AddTodayWater(now, saveFails);
      if outcome == Aborted {
        return;
      }
      ghost var water := Sample(old(uuids.next), WaterPerTap, now, now, true);
      SumAppend(before, water, today, now);
      FetchTodayWater(today, now, statisticsFails);
      FetchMostRecentWater(today, now, sampleFails);
      if today <= now {
        assert water in healthStore.samples && IsCandidate(water, today, now);
      }
    }

    /** The "Remove" button: remove, then refresh the total, then the handle.
        With no failure, deleting a stored sample of the window lowers the
        total shown by its quantity, and no handle leaves the total unchanged.
        When no own sample is left in the window the handle still names the
        sample just deleted, which the store no longer holds. */
    method RemoveButton(today: int, now: int, deleteFails: bool, statisticsFails: bool, sampleFails: bool)
      returns (outcome: Outcome)
      requires Valid()
      modifies healthStore, this`consumption, this`mostRecentWater
      ensures Valid()
      ensures outcome == (if old(mostRecentWater).Some? && deleteFails then Aborted else Done)
      ensures outcome == Aborted ==>
        && healthStore.samples == old(healthStore.samples)
        && consumption == old(consumption) && mostRecentWater == old(mostRecentWater)
      ensures old(mostRecentWater).None? ==> healthStore.samples == old(healthStore.samples)
      ensures old(mostRecentWater).Some? && !deleteFails ==>
        healthStore.samples == RemoveId(old(healthStore.samples), old(mostRecentWater).value.id)
      ensures outcome == Done && statisticsFails ==> consumption == old(consumption)
      ensures outcome == Done && !statisticsFails ==>
        && consumption - {today} == old(consumption) - {today}
        && (today in consumption <==> exists k :: 0 <= k < |healthStore.samples| && InWindow(healthStore.samples[k], today, now))
        && DisplayedTotal(consumption, today) == Sum(healthStore.samples, today, now)
      ensures outcome == Done ==>
        mostRecentWater == Refreshed(old(mostRecentWater), healthStore.samples, today, now, sampleFails)
      ensures outcome == Done && !statisticsFails ==>
        DisplayedTotal(consumption, today) <= old(Sum(healthStore.samples, today, now))
      ensures old(mostRecentWater).None? && !statisticsFails ==>
        DisplayedTotal(consumption, today) == old(Sum(healthStore.samples, today, now))
      ensures old(mostRecentWater).Some? && !deleteFails && !statisticsFails
              && old(mostRecentWater).value in old(healthStore.samples)
              && InWindow(old(mostRecentWater).value, today, now) ==>
        DisplayedTotal(consumption, today) == old(Sum(healthStore.samples, today, now)) - old(mostRecentWater).value.ml
      ensures old(mostRecentWater).Some? && !deleteFails && !statisticsFails
              && old(mostRecentWater).value in old(healthStore.samples)
              && !InWindow(old(mostRecentWater).value, today, now) ==>
        DisplayedTotal(consumption, today) == old(Sum(healthStore.samples, today, now))
      ensures old(mostRecentWater).Some? && !deleteFails && !statisticsFails
              && (forall k :: 0 <= k < |old(healthStore.samples)| ==> old(healthStore.samples)[k].id != old(mostRecentWater).value.id) ==>
        healthStore.samples == old(healthStore.samples)
        && DisplayedTotal(consumption, today) == old(Sum(healthStore.samples, today, now))
      ensures old(mostRecentWater).Some? && !deleteFails && Latest(healthStore.samples, today, now).None? ==>
        && mostRecentWater == old(mostRecentWater)
        && forall k :: 0 <= k < |healthStore.samples| ==> healthStore.samples[k].id != mostRecentWater.value.id
    {
      ghost var before := healthStore.samples;
      outcome := RemoveTodayWater(deleteFails);
      if outcome == Aborted {
        return;
      }
      if old(mostRecentWater).Some? {
        SumRemoveIdAtMost(before, mostRecentWater.value.id, today, now);
        if mostRecentWater.value in before {
          SumRemoveId(before, mostRecentWater.value, today, now);
        }
      }
      FetchTodayWater(today, now, statisticsFails);
      FetchMostRecentWater(today, now, sampleFails);
    }
  }
}
