/**
 * How one operation's effect on the stores shows in the next read: the
 * listing after an update, and the logs and statistics of a tour after one
 * of its logs is created or updated.
 * Every statement here is about the store values that the service's methods
 * are proved to produce.
 */
module ServiceProperties {
  import opened Entities
  import opened Store
  import opened Stats
  import opened Service

  /**
   * After `updateTour(id, f)` the listing has the same tours in the same
   * order; the updated tour's view holds exactly the fields `f`, with
   * statistics recomputed from its logs; every other view is as before.
   */
  lemma UpdateThenList(tours: map<int, Tour>, tourBound: int, logs: map<int, TourLog>, logBound: int,
                       id: int, f: TourFields)
    requires id in tours
    ensures var before := AllTourViews(tours, tourBound, logs, logBound);
            var after := AllTourViews(tours[id := TourOf(f)], tourBound, logs, logBound);
            && |after| == |before|
            && forall k :: 0 <= k < |after| ==>
                 after[k] == if before[k].id == id then TourViewOf(id, TourOf(f), logs, logBound) else before[k]
  {
    assert tours[id := TourOf(f)].Keys == tours.Keys;
  }

  /**
   * Saving a log under the counter's id appends that id to its tour's log
   * ids and leaves every other tour's log ids alone.
   */
  lemma CreateLogThenListIds(logs: map<int, TourLog>, bound: int, log: TourLog, tourId: int)
    requires 0 <= bound
    requires forall x :: x in logs ==> x < bound
    ensures LogIdsOf(logs[bound := log], bound + 1, tourId)
         == LogIdsOf(logs, bound, tourId) + (if log.tourId == tourId then [bound] else [])
  {
    var ids := IdsBelow(logs.Keys, bound);
    assert logs[bound := log].Keys == logs.Keys + {bound};
    IdsBelowSaveAtBound(logs.Keys, bound);
    assert forall i :: 0 <= i < |ids| ==> ids[i] in ids;
    SelectAfterSave(ids, logs, bound, log, tourId);
  }

  /** Appending one log adds its rating to the sum. */
  lemma SumRatingsSnoc(ls: seq<TourLog>, log: TourLog)
    ensures SumRatings(ls + [log]) == SumRatings(ls) + log.rating
  {
  }

  /**
   * Creating a log for a tour makes its next view count one more log and add
   * the new rating to the sum; the popularity tier never drops.
   */
  lemma CreateLogThenStats(logs: map<int, TourLog>, bound: int, log: TourLog)
    requires 0 <= bound
    requires forall x :: x in logs ==> x < bound
    ensures var before := LogsOf(logs, bound, log.tourId);
            var after := LogsOf(logs[bound := log], bound + 1, log.tourId);
            && after == before + [log]
            && |after| == |before| + 1
            && SumRatings(after) == SumRatings(before) + log.rating
            && TierRank(Popularity(|before|)) <= TierRank(Popularity(|after|))
  {
    var ids := LogIdsOf(logs, bound, log.tourId);
    CreateLogThenListIds(logs, bound, log, log.tourId);
    LookupSaveAtBound(ids, logs, bound, log);
    var before := LogsOf(logs, bound, log.tourId);
    var after := LogsOf(logs[bound := log], bound + 1, log.tourId);
    SumRatingsSnoc(before, log);
    PopularityMonotone(|before|, |after|);
  }

  /**
   * Updating a log in place, with its parent kept, leaves every tour's log
   * ids as they were: an update never moves a log to another tour.
   */
  lemma UpdateLogKeepsListing(logs: map<int, TourLog>, bound: int, logId: int, log: TourLog, tourId: int)
    requires logId in logs && log.tourId == logs[logId].tourId
    ensures LogIdsOf(logs[logId := log], bound, tourId) == LogIdsOf(logs, bound, tourId)
  {
    var updated := logs[logId := log];
    assert updated.Keys == logs.Keys;
    var ids := IdsBelow(logs.Keys, bound);
    assert forall i :: 0 <= i < |ids| ==> ids[i] in ids;
    SelectAgree(ids, updated, logs, tourId);
  }

  /**
   * Updating a log in place shows the new record at the same place in its
   * tour's logs, and leaves the other entries as they were.
   */
  lemma UpdateLogThenLogs(logs: map<int, TourLog>, bound: int, logId: int, log: TourLog, tourId: int)
    requires logId in logs && log.tourId == logs[logId].tourId
    ensures var ids := LogIdsOf(logs, bound, tourId);
            var after := LogsOf(logs[logId := log], bound, tourId);
            && |after| == |ids|
            && forall k :: 0 <= k < |ids| ==> after[k] == if ids[k] == logId then log else logs[ids[k]]
  {
    UpdateLogKeepsListing(logs, bound, logId, log, tourId);
  }

  /**
   * A tour's statistics are taken over exactly the logs `getTourLogs` lists
   * for it, in the same order: the same count, and rating for rating.
   */
  lemma StatsUseListedLogs(logs: map<int, TourLog>, bound: int, tourId: int)
    ensures var listed := TourLogViewsOf(LogIdsOf(logs, bound, tourId), logs);
            var counted := LogsOf(logs, bound, tourId);
            && |counted| == |listed|
            && forall k :: 0 <= k < |listed| ==> counted[k].rating == listed[k].rating
  {
  }
}
