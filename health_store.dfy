/** The health record store as the water tracker sees it: a list of water
    samples, the two queries the app runs over them, and save and delete.
    Dates are instants in seconds; quantities are whole millilitres. */
module HealthStore {
  import opened Wrappers

  /** An `HKQuantitySample` of dietary water: its UUID, its quantity in ml,
      its start and end dates, and whether this app wrote it. */
  datatype Sample = Sample(id: nat, ml: nat, startDate: int, endDate: int, ownSource: bool)

  /** `HKQuery.predicateForSamples(withStart: from, end: to)` with no options:
      the sample's time span meets `from` .. `to`. Taking the window as closed
      at both ends is this model's choice; the store's own rule at the
      boundaries is not modelled. */
  predicate InWindow(s: Sample, from: int, to: int): (b: bool)
    ensures b <==> !(s.endDate < from || to < s.startDate)
    ensures s.startDate <= s.endDate && from <= s.startDate <= to ==> b
  {
    s.startDate <= to && from <= s.endDate
  }

  /** The samples the most-recent query looks for: written by this app
      (`HKSource.default()`) and in the window. */
  predicate IsCandidate(s: Sample, from: int, to: int): (b: bool)
    ensures b ==> InWindow(s, from, to)
    ensures !s.ownSource ==> !b
  {
    s.ownSource && InWindow(s, from, to)
  }

  /** The cumulative sum of the window's samples, from every source. */
  function Sum(samples: seq<Sample>, from: int, to: int): (total: nat)
    ensures (forall k :: 0 <= k < |samples| ==> !InWindow(samples[k], from, to)) ==> total == 0
    ensures forall k :: 0 <= k < |samples| && InWindow(samples[k], from, to) ==> samples[k].ml <= total
  {
    if samples == [] then 0
    else
      assert forall k :: 1 <= k < |samples| ==> samples[k] == samples[1..][k - 1];
      (if InWindow(samples[0], from, to) then samples[0].ml else 0) + Sum(samples[1..], from, to)
  }

  /** Summing is additive: one more sample raises the sum by its quantity when
      it is in the window, and leaves it alone otherwise. */
  lemma {:induction false} SumAppend(samples: seq<Sample>, s: Sample, from: int, to: int)
    ensures Sum(samples + [s], from, to) == Sum(samples, from, to) + (if InWindow(s, from, to) then s.ml else 0)
  {
    if samples != [] {
      assert (samples + [s])[0] == samples[0];
      assert (samples + [s])[1..] == samples[1..] + [s];
      SumAppend(samples[1..], s, from, to);
    } else {
      assert [s][1..] == [];
    }
  }

  /** No UUID is used by two samples. */
  predicate UniqueIds(samples: seq<Sample>)
  {
    forall i, j :: 0 <= i < j < |samples| ==> samples[i].id != samples[j].id
  }

  /** Every UUID is below `bound`. */
  predicate IdsBelow(samples: seq<Sample>, bound: nat)
  {
    forall k :: 0 <= k < |samples| ==> samples[k].id < bound
  }

  /** The store after deleting the object with UUID `id`. */
  function RemoveId(samples: seq<Sample>, id: nat): (r: seq<Sample>)
    ensures forall s :: s in r <==> s in samples && s.id != id
    ensures (forall k :: 0 <= k < |samples| ==> samples[k].id != id) ==> r == samples
    ensures |r| <= |samples|
  {
    if samples == [] then []
    else
      assert samples == [samples[0]] + samples[1..];
      if samples[0].id == id then RemoveId(samples[1..], id) else [samples[0]] + RemoveId(samples[1..], id)
  }

  /** With unique UUIDs, the first sample's UUID occurs nowhere after it. */
  lemma HeadIdNotInTail(samples: seq<Sample>)
    requires UniqueIds(samples) && samples != []
    ensures forall t :: t in samples[1..] ==> t.id != samples[0].id
  {
    forall t | t in samples[1..] ensures t.id != samples[0].id {
      var j :| 0 <= j < |samples[1..]| && samples[1..][j] == t;
      assert samples[j + 1] == t;
    }
  }

  /** Deleting never makes two samples share a UUID. */
  lemma {:induction false} RemoveIdKeepsUnique(samples: seq<Sample>, id: nat)
    requires UniqueIds(samples)
    ensures UniqueIds(RemoveId(samples, id))
  {
    if samples != [] {
      var rest := samples[1..];
      assert UniqueIds(rest) by {
        forall k | 0 <= k < |rest| ensures rest[k] == samples[k + 1] { }
      }
      RemoveIdKeepsUnique(rest, id);
      HeadIdNotInTail(samples);
      var r := RemoveId(rest, id);
      assert forall k :: 0 <= k < |r| ==> r[k] in rest;
    }
  }

  /** Deleting keeps every UUID below the bound. */
  lemma {:induction false} RemoveIdKeepsBound(samples: seq<Sample>, id: nat, bound: nat)
    requires IdsBelow(samples, bound)
    ensures IdsBelow(RemoveId(samples, id), bound)
  {
    if samples != [] {
      var rest := samples[1..];
      assert IdsBelow(rest, bound) by {
        forall k | 0 <= k < |rest| ensures rest[k] == samples[k + 1] { }
      }
      RemoveIdKeepsBound(rest, id, bound);
    }
  }

  /** Deleting never raises the sum. */
  lemma {:induction false} SumRemoveIdAtMost(samples: seq<Sample>, id: nat, from: int, to: int)
    ensures Sum(RemoveId(samples, id), from, to) <= Sum(samples, from, to)
  {
    if samples != [] {
      var rest := samples[1..];
      SumRemoveIdAtMost(rest, id, from, to);
      if samples[0].id != id {
        var out := [samples[0]] + RemoveId(rest, id);
        assert RemoveId(samples, id) == out;
        assert out[0] == samples[0] && out[1..] == RemoveId(rest, id);
      }
    }
  }

  /** Deleting a sample that is stored once takes exactly its quantity out of
      the sum when it is in the window, and nothing otherwise. */
  lemma {:induction false} SumRemoveId(samples: seq<Sample>, s: Sample, from: int, to: int)
    requires UniqueIds(samples) && s in samples
    ensures Sum(RemoveId(samples, s.id), from, to) + (if InWindow(s, from, to) then s.ml else 0)
         == Sum(samples, from, to)
  {
    var rest := samples[1..];
    assert UniqueIds(rest) by {
      forall k | 0 <= k < |rest| ensures rest[k] == samples[k + 1] { }
    }
    if samples[0] == s {
      assert forall k :: 0 <= k < |rest| ==> rest[k].id != s.id by {
        forall k | 0 <= k < |rest| ensures rest[k].id != s.id {
          assert rest[k] == samples[k + 1];
        }
      }
      assert RemoveId(rest, s.id) == rest;
    } else {
      var j :| 0 <= j < |samples| && samples[j] == s;
      assert j > 0 && rest[j - 1] == s;
      assert samples[0].id != s.id;
      SumRemoveId(rest, s, from, to);
      assert RemoveId(samples, s.id) == [samples[0]] + RemoveId(rest, s.id);
      assert ([samples[0]] + RemoveId(rest, s.id))[1..] == RemoveId(rest, s.id);
    }
  }

  /** The most recent candidate: the own-source sample in the window with the
      latest end date. Among candidates with the same end date the one stored
      last is taken. */
  function Latest(samples: seq<Sample>, from: int, to: int): (r: Option<Sample>)
    ensures r.Some? ==> r.value in samples && IsCandidate(r.value, from, to)
    ensures r.Some? ==> forall t :: t in samples && IsCandidate(t, from, to) ==> t.endDate <= r.value.endDate
    ensures r.None? <==> forall t :: t in samples ==> !IsCandidate(t, from, to)
  {
    if samples == [] then None
    else
      assert samples == [samples[0]] + samples[1..];
      var rest := Latest(samples[1..], from, to);
      var s := samples[0];
      if !IsCandidate(s, from, to) then rest
      else if rest.Some? && s.endDate <= rest.value.endDate then rest
      else Some(s)
  }

  /** What an `HKStatisticsQuery` delivers: an error, or statistics whose sum
      is `nil` when no sample matched. */
  datatype StatisticsResult = QueryFailed | Statistics(sumQuantity: Option<nat>)

  /** What an `HKSampleQuery` delivers: an error, or the matching samples. */
  datatype SampleResult = SampleQueryFailed | Samples(results: seq<Sample>)

  /** `HKHealthStore`. */
  class Store {
    var samples: seq<Sample>

    constructor (samples: seq<Sample>)
      ensures this.samples == samples
    {
      this.samples := samples;
    }

    /** Runs the cumulative-sum statistics query over `from` .. `to`; `fails`
        stands for a query error. */
    method ExecuteStatisticsQuery(from: int, to: int, fails: bool) returns (result: StatisticsResult)
      ensures result.QueryFailed? <==> fails
      ensures result.Statistics? && result.sumQuantity.Some? ==>
        result.sumQuantity.value == Sum(samples, from, to)
      ensures result.Statistics? ==>
        (result.sumQuantity.None? <==> forall k :: 0 <= k < |samples| ==> !InWindow(samples[k], from, to))
    {
      if fails {
        return QueryFailed;
      }
      var matched := exists k :: 0 <= k < |samples| && InWindow(samples[k], from, to);
      if matched {
        result := Statistics(Some(Sum(samples, from, to)));
      } else {
        result := Statistics(None);
      }
    }

    /** Runs the own-source sample query over `from` .. `to`, sorted by end
        date descending, with limit 1; `fails` stands for a query error. */
    method ExecuteSampleQuery(from: int, to: int, fails: bool) returns (result: SampleResult)
      ensures result.SampleQueryFailed? <==> fails
      ensures result.Samples? ==> |result.results| <= 1
      ensures result.Samples? ==> (result.results == [] <==> forall t :: t in samples ==> !IsCandidate(t, from, to))
      ensures result.Samples? && result.results != [] ==>
        && result.results[0] in samples
        && IsCandidate(result.results[0], from, to)
        && (forall t :: t in samples && IsCandidate(t, from, to) ==> t.endDate <= result.results[0].endDate)
        && Some(result.results[0]) == Latest(samples, from, to)
    {
      if fails {
        return SampleQueryFailed;
      }
      var latest := Latest(samples, from, to);
      match latest
      case None => result := Samples([]);
      case Some(s) => result := Samples([s]);
    }

    /** `save(_:)`, which throws when `fails`. */
    method Save(s: Sample, fails: bool) returns (ok: bool)
      modifies this
      ensures ok == !fails
      ensures samples == if ok then old(samples) + [s] else old(samples)
    {
      if fails {
        return false;
      }
      samples := samples + [s];
      return true;
    }

    /** `delete(_:)`, which throws when `fails`; it removes the object with the
        sample's UUID, if the store still holds it. */
    method Delete(s: Sample, fails: bool) returns (ok: bool)
      modifies this
      ensures ok == !fails
      ensures samples == if ok then RemoveId(old(samples), s.id) else old(samples)
    {
      if fails {
        return false;
      }
      samples := RemoveId(samples, s.id);
      return true;
    }
  }
}
