/**
 * `TourService`: the tour and tour log operations, over a tour store and a
 * log store, each a map from id to record with a counter that hands out the
 * next id. A log refers to its parent tour by id; deleting a tour does not
 * delete its logs.
 */
module Service {
  import opened Errors
  import opened Dates
  import opened Entities
  import opened Store
  import opened Stats

  /** `new TourEntity(...)` from the supplied fields. */
  function TourOf(f: TourFields): (t: Tour)
    ensures t.name == f.name && t.description == f.description
    ensures t.startLocation == f.from && t.endLocation == f.to
    ensures t.transportType == f.transportType && t.distance == f.distance && t.estimatedTime == f.estTime
  {
    Tour(f.name, f.description, f.from, f.to, f.transportType, f.distance, f.estTime)
  }

  /** `new TourLogEntity(...)` from the supplied fields, the parsed date and the parent's id. */
  function TourLogOf(f: TourLogFields, dateTime: LocalDateTime, tourId: int): (l: TourLog)
    ensures l.tourId == tourId && l.dateTime == dateTime
    ensures l.comment == f.comment && l.difficulty == f.difficulty && l.rating == f.rating
    ensures l.totalDistance == f.totalDistance && l.totalTime == f.totalTime
  {
    TourLog(dateTime, f.comment, f.difficulty, f.totalDistance, f.totalTime, f.rating, tourId)
  }

  /** `toDto`: a tour's view, its statistics taken over its logs among those with ids below `logBound`. */
  function TourViewOf(id: int, t: Tour, logs: map<int, TourLog>, logBound: int): (v: TourView)
    ensures v.id == id && v.name == t.name && v.description == t.description
    ensures v.from == t.startLocation && v.to == t.endLocation
    ensures v.transportType == t.transportType && v.distance == t.distance && v.estTime == t.estimatedTime
  {
    var ls := LogsOf(logs, logBound, id);
    TourView(id, t.name, t.description, t.startLocation, t.endLocation, t.transportType,
             t.distance, t.estimatedTime, AverageRating(ls), Popularity(|ls|))
  }

  /**
   * A view's statistics are those of the logs `findByTourId` lists for the
   * tour: the tier of their count, a mean of 0 with none, and otherwise a mean
   * within any range that holds every one of their ratings.
   */
  lemma TourViewStats(id: int, t: Tour, logs: map<int, TourLog>, logBound: int, lo: int, hi: int)
    ensures var v := TourViewOf(id, t, logs, logBound);
            var ids := LogIdsOf(logs, logBound, id);
            && v.popularity == Popularity(|ids|)
            && (ids == [] ==> v.avgRating == 0.0)
            && (ids != [] && (forall x :: x in ids ==> lo <= logs[x].rating <= hi) ==>
                  lo as real <= v.avgRating <= hi as real)
  {
    var ids := LogIdsOf(logs, logBound, id);
    var ls := LogsOf(logs, logBound, id);
    if ids != [] && forall x :: x in ids ==> lo <= logs[x].rating <= hi {
      assert forall i :: 0 <= i < |ls| ==> ids[i] in ids;
      AverageWithinRatings(ls, lo, hi);
    }
  }

  /** `toTourLogDto`. */
  function TourLogViewOf(id: int, l: TourLog): (v: TourLogView)
    ensures v.id == id && v.dateTime == l.dateTime && v.comment == l.comment && v.difficulty == l.difficulty
    ensures v.totalDistance == l.totalDistance && v.totalTime == l.totalTime && v.rating == l.rating
  {
    TourLogView(id, l.dateTime, l.comment, l.difficulty, l.totalDistance, l.totalTime, l.rating)
  }

  /** `toDtos`: the views of the given tours, in the same order. */
  function TourViewsOf(ids: seq<int>, tours: map<int, Tour>, logs: map<int, TourLog>, logBound: int): (r: seq<TourView>)
    requires forall i :: 0 <= i < |ids| ==> ids[i] in tours
    ensures |r| == |ids|
    ensures forall k :: 0 <= k < |ids| ==> r[k].id == ids[k]
    ensures forall k :: 0 <= k < |ids| ==> r[k] == TourViewOf(ids[k], tours[ids[k]], logs, logBound)
  {
    seq(|ids|, k requires 0 <= k < |ids| => TourViewOf(ids[k], tours[ids[k]], logs, logBound))
  }

  /** One more id at the end of the list gives one more view at the end. */
  lemma TourViewsOfSnoc(ids: seq<int>, i: int, tours: map<int, Tour>, logs: map<int, TourLog>, logBound: int)
    requires 0 <= i < |ids| && forall j :: 0 <= j < |ids| ==> ids[j] in tours
    ensures TourViewsOf(ids[..i + 1], tours, logs, logBound)
         == TourViewsOf(ids[..i], tours, logs, logBound) + [TourViewOf(ids[i], tours[ids[i]], logs, logBound)]
  {
    assert ids[..i + 1][..i] == ids[..i];
  }

  /** What `getTours` returns: one view per stored tour, in store order. */
  function AllTourViews(tours: map<int, Tour>, tourBound: int, logs: map<int, TourLog>, logBound: int): (r: seq<TourView>)
    ensures forall k :: 0 <= k < |r| ==> r[k].id in tours && 0 <= r[k].id < tourBound
    ensures forall j, k :: 0 <= j < k < |r| ==> r[j].id < r[k].id
  {
    TourViewsOf(IdsBelow(tours.Keys, tourBound), tours, logs, logBound)
  }

  /**
   * The listing holds one view per stored tour with an id in `[0, tourBound)`
   * and nothing else, each view that tour's, in ascending id order.
   */
  lemma AllTourViewsListsEveryTour(tours: map<int, Tour>, tourBound: int, logs: map<int, TourLog>, logBound: int)
    ensures var views := AllTourViews(tours, tourBound, logs, logBound);
      && (forall k :: 0 <= k < |views| ==>
            views[k].id in tours && 0 <= views[k].id < tourBound
            && views[k] == TourViewOf(views[k].id, tours[views[k].id], logs, logBound))
      && (forall id :: id in tours && 0 <= id < tourBound ==> exists k :: 0 <= k < |views| && views[k].id == id)
      && (forall j, k :: 0 <= j < k < |views| ==> views[j].id < views[k].id)
  {
    var ids := IdsBelow(tours.Keys, tourBound);
    var views := AllTourViews(tours, tourBound, logs, logBound);
    assert forall j :: 0 <= j < |ids| ==> ids[j] in ids;
    forall id | id in tours && 0 <= id < tourBound
      ensures exists k :: 0 <= k < |views| && views[k].id == id
    {
      var k :| 0 <= k < |ids| && ids[k] == id;
      assert views[k].id == id;
    }
  }

  /** The running sum `toDto` takes over the ratings of a tour's logs, first to last. */
  method SumOfRatings(tourLogEntities: seq<TourLog>) returns (sumOfRatings: real)
    ensures sumOfRatings == SumRatings(tourLogEntities) as real
  {
    sumOfRatings := 0.0;
    for i := 0 to |tourLogEntities|
      invariant sumOfRatings == SumRatings(tourLogEntities[..i]) as real
    {
      SumRatingsPrefix(tourLogEntities, i);
      sumOfRatings := sumOfRatings + tourLogEntities[i].rating as real;
    }
    assert tourLogEntities[..|tourLogEntities|] == tourLogEntities;
  }

  /** The tier `toDto` assigns step by step, each threshold overriding the one before. */
  method PopularityOf(size: nat) returns (popularity: string)
    ensures popularity == Popularity(size)
  {
    popularity := "udefined";
    if size > 1 {
      popularity := "low";
    }
    if size >= 5 {
      popularity := "medium";
    }
    if size >= 10 {
      popularity := "popular";
    }
  }

  /** `toTourLogDtos`: the views of the given logs, in the same order. */
  function TourLogViewsOf(ids: seq<int>, logs: map<int, TourLog>): (r: seq<TourLogView>)
    requires forall i :: 0 <= i < |ids| ==> ids[i] in logs
    ensures |r| == |ids|
    ensures forall k :: 0 <= k < |ids| ==> r[k] == TourLogViewOf(ids[k], logs[ids[k]])
    decreases |ids|
  {
    if ids == [] then []
    else
      var last := ids[|ids| - 1];
      TourLogViewsOf(ids[..|ids| - 1], logs) + [TourLogViewOf(last, logs[last])]
  }

  class TourService {
    /** The tour store (`TourRepository`). */
    var tours: map<int, Tour>
    /** The log store (`TourLogRepository`). */
    var logs: map<int, TourLog>
    /** The id the tour store gives the next tour it saves. */
    var nextTourId: int
    /** The id the log store gives the next log it saves. */
    var nextLogId: int

    /** Every stored id was handed out by its store's counter, and every log's parent id by the tour store's. */
    ghost predicate Valid()
      reads this
    {
      && 1 <= nextTourId
      && 1 <= nextLogId
      && (forall id :: id in tours ==> 1 <= id < nextTourId)
      && (forall id :: id in logs ==> 1 <= id < nextLogId && 1 <= logs[id].tourId < nextTourId)
    }

    /** A service over two empty stores. */
    constructor ()
      ensures Valid()
      ensures tours == map[] && logs == map[]
    {
      tours := map[];
      logs := map[];
      nextTourId := 1;
      nextLogId := 1;
    }

    /** `getTours`: one view per stored tour, in store order, each with statistics over that tour's logs. */
    method GetTours() returns (views: seq<TourView>)
      requires Valid()
      ensures views == AllTourViews(tours, nextTourId, logs, nextLogId)
    {
      var ids := IdsBelow(tours.Keys, nextTourId);
      assert forall j :: 0 <= j < |ids| ==> ids[j] in ids;
      views := [];
      for i := 0 to |ids|
        invariant views == TourViewsOf(ids[..i], tours, logs, nextLogId)
      {
        var v := ToDto(ids[i], tours[ids[i]]);
        TourViewsOfSnoc(ids, i, tours, logs, nextLogId);
        views := views + [v];
      }
      assert ids[..|ids|] == ids;
    }

    /** `createTour`: saves one new tour, under a fresh id, holding exactly the supplied fields. */
    method CreateTour(f: TourFields)
      requires Valid()
      modifies this
      ensures Valid()
      ensures old(nextTourId) !in old(tours)
      ensures tours == old(tours)[old(nextTourId) := TourOf(f)]
      ensures |tours| == |old(tours)| + 1
      ensures nextTourId == old(nextTourId) + 1
      ensures logs == old(logs) && nextLogId == old(nextLogId)
      ensures LogIdsOf(logs, nextLogId, old(nextTourId)) == []
    {
      var tourEntity := TourOf(f);
      tours := tours[nextTourId := tourEntity];
      nextTourId := nextTourId + 1;
      NoLogIdsWithoutMatch(logs, nextLogId, old(nextTourId));
    }

    /** `deleteTour`: removes the tour if it is stored, without checking first; its logs stay. */
    method DeleteTour(id: int)
      requires Valid()
      modifies this
      ensures Valid()
      ensures tours == old(tours) - {id}
      ensures logs == old(logs)
      ensures nextTourId == old(nextTourId) && nextLogId == old(nextLogId)
    {
      tours := tours - {id};
    }

    /**
     * `updateTour`: NOT_FOUND when no tour has the id; otherwise overwrites
     * all seven fields, keeps the id and returns the new view.
     */
    method UpdateTour(id: int, f: TourFields) returns (r: Result<TourView>)
      requires Valid()
      modifies this
      ensures Valid()
      ensures logs == old(logs)
      ensures nextTourId == old(nextTourId) && nextLogId == old(nextLogId)
      ensures id !in old(tours) ==> r == Failure(NotFound(TourNotFound)) && tours == old(tours)
      ensures id in old(tours) ==>
        && tours == old(tours)[id := TourOf(f)]
        && r == Success(TourViewOf(id, TourOf(f), logs, nextLogId))
    {
      if id !in tours {
        return Failure(NotFound(TourNotFound));
      }
      var tourEntity := tours[id];
      tourEntity := tourEntity.(distance := f.distance);
      tourEntity := tourEntity.(name := f.name);
      tourEntity := tourEntity.(endLocation := f.to);
      tourEntity := tourEntity.(startLocation := f.from);
      tourEntity := tourEntity.(transportType := f.transportType);
      tourEntity := tourEntity.(description := f.description);
      tourEntity := tourEntity.(estimatedTime := f.estTime);
      tours := tours[id := tourEntity];
      var v := ToDto(id, tourEntity);
      r := Success(v);
    }

    /**
     * `toDto`: the view of a tour, with the mean rating and the popularity
     * tier of the logs whose parent id is the tour's id. The rating loop and
     * the stepwise tier assignment are `SumOfRatings` and `PopularityOf`.
     */
    method ToDto(id: int, t: Tour) returns (v: TourView)
      ensures v == TourViewOf(id, t, logs, nextLogId)
    {
      var tourLogEntities := LogsOf(logs, nextLogId, id);
      var sumOfRatings := SumOfRatings(tourLogEntities);
      var avgRating: real := 0.0;
      if |tourLogEntities| != 0 {
        avgRating := sumOfRatings / |tourLogEntities| as real;
      }
      assert avgRating == AverageRating(tourLogEntities);
      var popularity := PopularityOf(|tourLogEntities|);
      v := TourView(id, t.name, t.description, t.startLocation, t.endLocation, t.transportType,
                    t.distance, t.estimatedTime, avgRating, popularity);
    }

    /**
     * `createTourLog`: NOT_FOUND when the tour is missing, checked before the
     * date; IllegalArgument when the date does not parse; otherwise saves one
     * new log under a fresh id, with the tour as its parent.
     */
    method CreateTourLog(tourId: int, f: TourLogFields) returns (r: Result<TourLogView>)
      requires Valid()
      modifies this
      ensures Valid()
      ensures tours == old(tours) && nextTourId == old(nextTourId)
      ensures tourId !in tours ==>
        r == Failure(NotFound(TourNotFound)) && logs == old(logs) && nextLogId == old(nextLogId)
      ensures tourId in tours && ParseDateTimeOrThrow(f.dateTime).Failure? ==>
        r == Failure(IllegalArgument(InvalidDateFormat)) && logs == old(logs) && nextLogId == old(nextLogId)
      ensures tourId in tours && ParseDateTimeOrThrow(f.dateTime).Success? ==>
        var log := TourLogOf(f, ParseDateTimeOrThrow(f.dateTime).value, tourId);
        && old(nextLogId) !in old(logs)
        && logs == old(logs)[old(nextLogId) := log]
        && nextLogId == old(nextLogId) + 1
        && r == Success(TourLogViewOf(old(nextLogId), log))
    {
      if tourId !in tours {
        return Failure(NotFound(TourNotFound));
      }
      var parsed := ParseDateTimeOrThrow(f.dateTime);
      if parsed.Failure? {
        return Failure(parsed.error);
      }
      var tourLogEntity := TourLogOf(f, parsed.value, tourId);
      var id := nextLogId;
      logs := logs[id := tourLogEntity];
      nextLogId := nextLogId + 1;
      r := Success(TourLogViewOf(id, tourLogEntity));
    }

    /**
     * `deleteTourLog`: NOT_FOUND when the log is missing or belongs to
     * another tour; otherwise removes that one log.
     */
    method DeleteTourLog(tourId: int, tourLogId: int) returns (r: Outcome)
      requires Valid()
      modifies this
      ensures Valid()
      ensures tours == old(tours)
      ensures nextTourId == old(nextTourId) && nextLogId == old(nextLogId)
      ensures tourLogId !in old(logs) ==> r == Fail(NotFound(TourLogNotFound)) && logs == old(logs)
      ensures tourLogId in old(logs) && old(logs)[tourLogId].tourId != tourId ==>
        r == Fail(NotFound(TourIdMismatch)) && logs == old(logs)
      ensures tourLogId in old(logs) && old(logs)[tourLogId].tourId == tourId ==>
        r == Pass && logs == old(logs) - {tourLogId}
    {
      if tourLogId !in logs {
        return Fail(NotFound(TourLogNotFound));
      }
      if logs[tourLogId].tourId != tourId {
        return Fail(NotFound(TourIdMismatch));
      }
      logs := logs - {tourLogId};
      r := Pass;
    }

    /**
     * `getTourLogs`: the views of exactly the logs whose parent id is
     * `tourId`, in store order; an id no tour has gives no views, not an error.
     */
    method GetTourLogs(tourId: int) returns (views: seq<TourLogView>)
      requires Valid()
      ensures |views| == |LogIdsOf(logs, nextLogId, tourId)|
      ensures forall k :: 0 <= k < |views| ==> views[k].id == LogIdsOf(logs, nextLogId, tourId)[k]
      ensures forall k :: 0 <= k < |views| ==>
        views[k].id in logs && logs[views[k].id].tourId == tourId
        && views[k] == TourLogViewOf(views[k].id, logs[views[k].id])
      ensures forall id :: id in logs && logs[id].tourId == tourId ==>
        exists k :: 0 <= k < |views| && views[k].id == id
      ensures forall j, k :: 0 <= j < k < |views| ==> views[j].id < views[k].id
      ensures !(1 <= tourId < nextTourId) ==> views == []
    {
      var ids := LogIdsOf(logs, nextLogId, tourId);
      views := TourLogViewsOf(ids, logs);
      if !(1 <= tourId < nextTourId) {
        NoLogIdsWithoutMatch(logs, nextLogId, tourId);
      }
      forall id | id in logs && logs[id].tourId == tourId
        ensures exists k :: 0 <= k < |views| && views[k].id == id
      {
        var k :| 0 <= k < |ids| && ids[k] == id;
        assert views[k].id == id;
      }
    }

    /**
     * `updateTourLog`: NOT_FOUND when the log is missing or belongs to
     * another tour, checked before the date; IllegalArgument when the date
     * does not parse; otherwise overwrites the six fields and keeps the parent.
     */
    method UpdateTourLog(tourId: int, tourLogId: int, f: TourLogFields) returns (r: Result<TourLogView>)
      requires Valid()
      modifies this
      ensures Valid()
      ensures tours == old(tours)
      ensures nextTourId == old(nextTourId) && nextLogId == old(nextLogId)
      ensures tourLogId !in old(logs) ==> r == Failure(NotFound(TourLogNotFound)) && logs == old(logs)
      ensures tourLogId in old(logs) && old(logs)[tourLogId].tourId != tourId ==>
        r == Failure(NotFound(TourIdMismatch)) && logs == old(logs)
      ensures tourLogId in old(logs) && old(logs)[tourLogId].tourId == tourId
              && ParseDateTimeOrThrow(f.dateTime).Failure? ==>
        r == Failure(IllegalArgument(InvalidDateFormat)) && logs == old(logs)
      ensures tourLogId in old(logs) && old(logs)[tourLogId].tourId == tourId
              && ParseDateTimeOrThrow(f.dateTime).Success? ==>
        var log := TourLogOf(f, ParseDateTimeOrThrow(f.dateTime).value, old(logs)[tourLogId].tourId);
        logs == old(logs)[tourLogId := log] && r == Success(TourLogViewOf(tourLogId, log))
    {
      if tourLogId !in logs {
        return Failure(NotFound(TourLogNotFound));
      }
      var tourLogEntity := logs[tourLogId];
      if tourLogEntity.tourId != tourId {
        return Failure(NotFound(TourIdMismatch));
      }
      var parsed := ParseDateTimeOrThrow(f.dateTime);
      if parsed.Failure? {
        return Failure(parsed.error);
      }
      tourLogEntity := tourLogEntity.(comment := f.comment);
      tourLogEntity := tourLogEntity.(dateTime := parsed.value);
      tourLogEntity := tourLogEntity.(difficulty := f.difficulty);
      tourLogEntity := tourLogEntity.(totalDistance := f.totalDistance);
      tourLogEntity := tourLogEntity.(totalTime := f.totalTime);
      tourLogEntity := tourLogEntity.(rating := f.rating);
      logs := logs[tourLogId := tourLogEntity];
      r := Success(TourLogViewOf(tourLogId, tourLogEntity));
    }
  }
}
