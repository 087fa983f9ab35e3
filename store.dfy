/**
 * Queries over the two stores that stand in for the repositories. Every id
 * a store holds lies below its id counter, and a store lists its records in
 * ascending id order; since the counter only grows, that is also the order
 * in which the records were first saved.
 */
module Store {
  import opened Entities

  predicate Increasing(ids: seq<int>) {
    forall i, j :: 0 <= i < j < |ids| ==> ids[i] < ids[j]
  }

  lemma AppendIncreasing(s: seq<int>, x: int)
    requires Increasing(s) && forall y :: y in s ==> y < x
    ensures Increasing(s + [x])
  {
    forall i, j | 0 <= i < j < |s| + 1
      ensures (s + [x])[i] < (s + [x])[j]
    {
      assert (s + [x])[i] == s[i];
      if j == |s| {
        assert s[i] in s;
      }
    }
  }

  /** A run drawn from all but the last of an increasing sequence may be extended by that last element. */
  lemma ExtendIncreasing(ids: seq<int>, run: seq<int>)
    requires ids != [] && (Increasing(ids[..|ids| - 1]) ==> Increasing(run))
    requires forall y :: y in run ==> y in ids[..|ids| - 1]
    ensures Increasing(ids) ==> Increasing(run + [ids[|ids| - 1]])
  {
    if Increasing(ids) {
      assert Increasing(ids[..|ids| - 1]);
      forall y | y in run
        ensures y < ids[|ids| - 1]
      {
        var k :| 0 <= k < |ids| - 1 && ids[..|ids| - 1][k] == y;
        assert ids[k] == y;
      }
      AppendIncreasing(run, ids[|ids| - 1]);
    }
  }

  /** The ids in `keys` from 0 up to `bound`, ascending: the store's `findAll` order. */
  function IdsBelow(keys: set<int>, bound: int): (r: seq<int>)
    ensures forall x :: x in r <==> x in keys && 0 <= x < bound
    ensures Increasing(r)
    decreases bound
  {
    if bound <= 0 then []
    else
      var init := IdsBelow(keys, bound - 1);
      if bound - 1 in keys then AppendIncreasing(init, bound - 1); init + [bound - 1] else init
  }

  /** The ids among `ids` whose log belongs to `tourId`, in the same order. */
  function SelectByTour(ids: seq<int>, logs: map<int, TourLog>, tourId: int): (r: seq<int>)
    requires forall i :: 0 <= i < |ids| ==> ids[i] in logs
    ensures forall x :: x in r <==> x in ids && logs[x].tourId == tourId
    ensures Increasing(ids) ==> Increasing(r)
    decreases |ids|
  {
    if ids == [] then []
    else
      var init := SelectByTour(ids[..|ids| - 1], logs, tourId);
      var last := ids[|ids| - 1];
      if logs[last].tourId == tourId then
        ExtendIncreasing(ids, init);
        init + [last]
      else init
  }

  /** `findByTourId`: the ids of the logs of one tour, in store order. */
  function LogIdsOf(logs: map<int, TourLog>, bound: int, tourId: int): (r: seq<int>)
    ensures forall x :: x in r <==> x in logs && 0 <= x < bound && logs[x].tourId == tourId
    ensures Increasing(r)
  {
    SelectByTour(IdsBelow(logs.Keys, bound), logs, tourId)
  }

  /** A tour that no log names as its parent has no log ids. */
  lemma NoLogIdsWithoutMatch(logs: map<int, TourLog>, bound: int, tourId: int)
    requires forall x :: x in logs ==> logs[x].tourId != tourId
    ensures LogIdsOf(logs, bound, tourId) == []
  {
    var ids := IdsBelow(logs.Keys, bound);
    assert forall i :: 0 <= i < |ids| ==> ids[i] in ids;
    NoneSelected(ids, logs, tourId);
  }

  lemma {:induction false} NoneSelected(ids: seq<int>, logs: map<int, TourLog>, tourId: int)
    requires forall i :: 0 <= i < |ids| ==> ids[i] in logs && logs[ids[i]].tourId != tourId
    ensures SelectByTour(ids, logs, tourId) == []
    decreases |ids|
  {
    if ids != [] {
      NoneSelected(ids[..|ids| - 1], logs, tourId);
    }
  }

  /** The records of the given ids, in the same order. */
  function Lookup(ids: seq<int>, logs: map<int, TourLog>): (r: seq<TourLog>)
    requires forall i :: 0 <= i < |ids| ==> ids[i] in logs
    ensures |r| == |ids|
    ensures forall i :: 0 <= i < |ids| ==> r[i] == logs[ids[i]]
    decreases |ids|
  {
    if ids == [] then [] else Lookup(ids[..|ids| - 1], logs) + [logs[ids[|ids| - 1]]]
  }

  /** Looking up one more id, saved under the counter's id, gives that record last. */
  lemma LookupSaveAtBound(ids: seq<int>, logs: map<int, TourLog>, bound: int, log: TourLog)
    requires forall i :: 0 <= i < |ids| ==> ids[i] in logs
    requires forall x :: x in logs ==> x < bound
    ensures Lookup(ids + [bound], logs[bound := log]) == Lookup(ids, logs) + [log]
  {
    var saved := logs[bound := log];
    assert (ids + [bound])[..|ids|] == ids;
    assert forall i :: 0 <= i < |ids| ==> saved[ids[i]] == logs[ids[i]];
  }

  /** The logs of one tour, in store order. */
  function LogsOf(logs: map<int, TourLog>, bound: int, tourId: int): (r: seq<TourLog>)
    ensures |r| == |LogIdsOf(logs, bound, tourId)|
    ensures forall i :: 0 <= i < |r| ==>
      LogIdsOf(logs, bound, tourId)[i] in logs && r[i] == logs[LogIdsOf(logs, bound, tourId)[i]]
    ensures forall i :: 0 <= i < |r| ==> r[i].tourId == tourId
  {
    Lookup(LogIdsOf(logs, bound, tourId), logs)
  }

  /** The listing below a bound depends only on which ids below it are keys. */
  lemma {:induction false} IdsBelowAgree(k1: set<int>, k2: set<int>, bound: int)
    requires forall x :: 0 <= x < bound ==> (x in k1 <==> x in k2)
    ensures IdsBelow(k1, bound) == IdsBelow(k2, bound)
    decreases bound
  {
    if bound > 0 {
      IdsBelowAgree(k1, k2, bound - 1);
    }
  }

  /** Saving under the counter's id puts that id last in the listing. */
  lemma IdsBelowSaveAtBound(keys: set<int>, bound: int)
    requires 0 <= bound
    requires forall x :: x in keys ==> x < bound
    ensures IdsBelow(keys + {bound}, bound + 1) == IdsBelow(keys, bound) + [bound]
  {
    IdsBelowAgree(keys + {bound}, keys, bound);
  }

  /** Selecting by parent depends only on the parents of the ids selected from. */
  lemma {:induction false} SelectAgree(ids: seq<int>, m1: map<int, TourLog>, m2: map<int, TourLog>, tourId: int)
    requires forall i :: 0 <= i < |ids| ==> ids[i] in m1 && ids[i] in m2 && m1[ids[i]].tourId == m2[ids[i]].tourId
    ensures SelectByTour(ids, m1, tourId) == SelectByTour(ids, m2, tourId)
    decreases |ids|
  {
    if ids != [] {
      SelectAgree(ids[..|ids| - 1], m1, m2, tourId);
    }
  }

  /** Selecting from a listing with one more id at the end. */
  lemma SelectSnoc(ids: seq<int>, x: int, logs: map<int, TourLog>, tourId: int)
    requires forall i :: 0 <= i < |ids| ==> ids[i] in logs
    requires x in logs
    ensures SelectByTour(ids + [x], logs, tourId)
         == SelectByTour(ids, logs, tourId) + (if logs[x].tourId == tourId then [x] else [])
  {
  }

  /** Saving one more record under an id after the listed ones extends the selection by that id when its parent matches. */
  lemma SelectAfterSave(ids: seq<int>, logs: map<int, TourLog>, x: int, log: TourLog, tourId: int)
    requires forall i :: 0 <= i < |ids| ==> ids[i] in logs && ids[i] != x
    ensures SelectByTour(ids + [x], logs[x := log], tourId)
         == SelectByTour(ids, logs, tourId) + (if log.tourId == tourId then [x] else [])
  {
    SelectSnoc(ids, x, logs[x := log], tourId);
    SelectAgree(ids, logs[x := log], logs, tourId);
  }
}
