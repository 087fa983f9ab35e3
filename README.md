# Tour planner: the tour service

This project models `TourService`, the one class of the tour planner backend
that holds rules. The service manages tours, which are planned routes, and
tour logs, which record trips along a tour. It offers create, read, update and
delete operations on both. Each tour view carries two statistics derived from
the tour's logs when it is read:

- the mean rating;
- a popularity tier. The lowest tier is the string `"udefined"`, spelled as the
  service spells it.

A log's date arrives as text in the pattern `yyyy-MM-dd`. It is parsed to that
day at 00:00. A date that does not parse raises an IllegalArgumentException.

Modules, one per file:

- `Errors` (`errors.dfy`): how failures look.
  - `Result` and `Outcome` carry a failure.
  - A failure is `NotFound(reason)` (a NOT_FOUND `ResponseStatusException`) or
    `IllegalArgument(message)`.
  - The four messages are the service's own.
- `Dates` (`dates.dfy`): `parseDateTimeOrThrow`, as `LocalDate.parse` with
  `DateTimeFormatter.ofPattern("yyyy-MM-dd")` and then `atStartOfDay`.
  - The parse phase follows java.time's number parsers. The year field takes
    exactly four digits, or a `+` followed by five to nineteen digits. Month
    and day take exactly two digits each.
  - The resolve phase follows the default SMART resolver. The year must lie in
    1..999,999,999, the month in 1..12 and the day in 1..31. A day past the end
    of its month moves back to the month's last day, so `2025-02-30` yields
    28 February 2025.
  - `ParseAcceptsExactlyFullDates` states the accepted inputs by their shape.
  - `FormatThenParse` and `ParseThenFormat` relate the parser to writing a date
    back as text.
- `Entities` (`entities.dfy`): the records and their views.
  - `Tour` and `TourLog` are the stored records, without their ids.
  - `TourFields` and `TourLogFields` are what callers supply.
  - `TourView` and `TourLogView` are what the service returns.
- `Store` (`store.dfy`): the two repositories as maps from id to record.
  - `IdsBelow` gives the order a store lists its records in. That order is
    ascending id order, which is also the order of saving, because ids come
    from a counter that only grows.
  - `LogIdsOf` and `LogsOf` model `findByTourId`.
- `Stats` (`stats.dfy`): the statistics of `toDto`, as functions of a tour's
  logs, with their properties.
- `Service` (`service.dfy`): the class `TourService`.
  - Fields: the two stores and their id counters.
  - One method per operation of the service.
  - The functions the methods are proved against: `TourViewOf` for `toDto`,
    `AllTourViews` for `getTours`, and `TourLogViewsOf` for `toTourLogDtos`.
  - `SumOfRatings` and `PopularityOf` hold the rating loop and the stepwise
    tier assignment of `toDto`.
- `ServiceProperties` (`properties.dfy`): how one operation's change to the
  stores shows in the next read.

The code and a plain reading of the date rule disagree in two places. The
model follows the code:

- A year written as `+` followed by five or more digits (`+12025-01-01`) is
  accepted. A four-digit year is not the only accepted form.
- A day that does not exist in its month, such as the 30th of February, is
  moved back to the month's last day rather than rejected.

Deleting a tour leaves its logs stored. They keep the deleted tour's id as
their parent, and `getTourLogs` for that id still lists them.

## Model

| member | source | states |
|---|---|---|
| Dates.ParseDateTimeOrThrow | src/main/java/com/tourplanner/backend/services/TourService.java:142-151 | A failure is always IllegalArgument with "Invalid date format. Expected: yyyy-MM-dd". A success is a real calendar day at 00:00. |
| Dates.ParseFields | src/main/java/com/tourplanner/backend/services/TourService.java:145 | A successful parse phase has seen at least ten characters, with `-` six and three places from the end and two digits after each. The month and day it yields are the values of those digits. |
| Dates.Resolve | src/main/java/com/tourplanner/backend/services/TourService.java:145 | Resolution succeeds exactly when the year is in 1..999,999,999, the month in 1..12 and the day in 1..31. It yields a real calendar day with the same year and month. The day is the given one, or the month's last day when the given day is past it. |
| Dates.ParseAcceptsExactlyFullDates | src/main/java/com/tourplanner/backend/services/TourService.java:144-146 | The parse succeeds if and only if the input is a full date: the year text, `-`, two month digits in 1..12, `-`, two day digits in 1..31. A full date yields the day it names at 00:00, moved back to the month's end when the day is past it. |
| Dates.FullDateParses | src/main/java/com/tourplanner/backend/services/TourService.java:144-146 | Every full-date input parses to the day it names at 00:00. |
| Dates.ParsedIsFullDate | src/main/java/com/tourplanner/backend/services/TourService.java:144-149 | Every input that parses is a full date. Anything else raises IllegalArgumentException. |
| Dates.MonthLength | src/main/java/com/tourplanner/backend/services/TourService.java:145 | A month has 28 to 31 days. It has 31 days exactly in months 1, 3, 5, 7, 8, 10 and 12, and 29 days exactly in February of a leap year. |
| Dates.FormatThenParse | src/main/java/com/tourplanner/backend/services/TourService.java:142-151 | Every calendar date with a year from 1 to 9999, written as `yyyy-MM-dd`, parses back to that date at 00:00. |
| Dates.ParseThenFormat | src/main/java/com/tourplanner/backend/services/TourService.java:142-151 | An accepted ten-character input is given back by writing out its result if and only if its day is not past the end of its month. |
| Dates.ParseAcceptsExample | src/test/java/com/tourplanner/backend/services/BackendApplicationTests.java:84 | "2025-05-25" parses to 25 May 2025 at 00:00. |
| Dates.ParseRejectsExamples | src/main/java/com/tourplanner/backend/services/TourService.java:147-149 | "25-05-2025", "2025-13-40" and "" each fail with the date-format IllegalArgument. |
| Dates.ParseClampsExample | src/main/java/com/tourplanner/backend/services/TourService.java:144-145 | "2025-02-30" yields 28 February 2025; it is not rejected. |
| Dates.ParseClampsLeapExample | src/main/java/com/tourplanner/backend/services/TourService.java:144-145 | "2024-02-30" yields 29 February 2024. |
| Store.IdsBelow | src/main/java/com/tourplanner/backend/services/TourService.java:39 | `findAll` lists exactly the stored ids below the counter, each once, in ascending order. |
| Store.LogIdsOf | src/main/java/com/tourplanner/backend/services/TourService.java:193 | `findByTourId` lists exactly the stored logs whose parent id is the given id, in ascending id order. |
| Store.LogsOf | src/main/java/com/tourplanner/backend/services/TourService.java:104 | The logs `toDto` fetches are the stored records of the listed log ids, one per id, in the same order. Each has the tour as its parent. |
| Store.NoLogIdsWithoutMatch | src/main/java/com/tourplanner/backend/services/TourService.java:191-195 | An id that no log names as its parent has an empty log list, not an error. |
| Store.IdsBelowSaveAtBound | src/main/java/com/tourplanner/backend/services/TourService.java:169 | Saving under the counter's id puts that id last in the store's listing. |
| Stats.PopularityTiers | src/main/java/com/tourplanner/backend/services/TourService.java:113-122 | The tier is "udefined" for 0 or 1 logs, "low" for 2 to 4, "medium" for 5 to 9 and "popular" for 10 or more, each in both directions. |
| Stats.PopularityMonotone | src/main/java/com/tourplanner/backend/services/TourService.java:113-122 | More logs never give a lower tier. |
| Stats.AverageRating | src/main/java/com/tourplanner/backend/services/TourService.java:109-112 | With no logs the mean is 0. Otherwise the mean times the number of logs is the sum of their ratings. |
| Stats.SumRatingsAppend | src/main/java/com/tourplanner/backend/services/TourService.java:105-108 | The rating sum of two log lists joined together is the sum of their sums. |
| Stats.SumRatingsBounds | src/main/java/com/tourplanner/backend/services/TourService.java:105-108 | If every rating lies in lo..hi, the sum lies between count × lo and count × hi. |
| Stats.AverageWithinRatings | src/main/java/com/tourplanner/backend/services/TourService.java:109-112 | If a tour has logs and every rating lies in lo..hi, the mean rating lies in lo..hi too. |
| Stats.ExampleTourStats | src/main/java/com/tourplanner/backend/services/TourService.java:104-122 | Five logs rated 3, 4, 5, 2 and 5 give a mean of 3.8 and the tier "medium". |
| Service.TourViewsOf | src/main/java/com/tourplanner/backend/services/TourService.java:83-85 | `toDtos` gives one view per tour, in the same order, each the `toDto` view of that tour. |
| Service.TourLogViewsOf | src/main/java/com/tourplanner/backend/services/TourService.java:87-89 | `toTourLogDtos` gives one view per log, in the same order, each the `toTourLogDto` view of that log. |
| Service.TourOf | src/main/java/com/tourplanner/backend/services/TourService.java:45-53 | A new tour holds the seven supplied fields: `from` becomes the start location and `to` the end location. |
| Service.TourLogOf | src/main/java/com/tourplanner/backend/services/TourService.java:160-168 | A new log holds the parsed date, the five supplied fields and the id of its parent tour. |
| Service.TourViewOf | src/main/java/com/tourplanner/backend/services/TourService.java:123-135 | A tour view carries the tour's id and its seven fields: the start location as `from` and the end location as `to`. |
| Service.TourViewStats | src/main/java/com/tourplanner/backend/services/TourService.java:104-122 | A view's tier is the tier of the number of logs `findByTourId` lists for the tour. Its mean is 0 when there are none. Otherwise the mean lies in any range that holds every one of those logs' ratings. |
| Service.TourLogViewOf | src/main/java/com/tourplanner/backend/services/TourService.java:91-101 | A log view carries the given id, the log's date and its five other fields. |
| Service.AllTourViews | src/main/java/com/tourplanner/backend/services/TourService.java:37-41 | Every view in the listing belongs to a stored tour with an id below the counter, and the ids strictly ascend. |
| Service.SumOfRatings | src/main/java/com/tourplanner/backend/services/TourService.java:105-108 | The loop's running sum over the logs, first to last, ends at the sum of their ratings. |
| Service.PopularityOf | src/main/java/com/tourplanner/backend/services/TourService.java:113-122 | The tier assignments, each threshold overriding the one before, end at the tier `Popularity` gives for the count. |
| Service.AllTourViewsListsEveryTour | src/main/java/com/tourplanner/backend/services/TourService.java:37-41 | The tour listing holds exactly one view per stored tour. Each view carries its tour's fields and stats, and the views are in ascending id order. |
| Service.TourService.constructor | src/main/java/com/tourplanner/backend/services/TourService.java:32-35 | The service starts over two empty stores, with the invariant established. |
| Service.TourService.GetTours | src/main/java/com/tourplanner/backend/services/TourService.java:37-41 | `getTours` returns `AllTourViews` of the current stores and changes nothing. |
| Service.TourService.ToDto | src/main/java/com/tourplanner/backend/services/TourService.java:103-138 | `toDto` gives exactly the view `TourViewOf` describes: the tour's fields, the mean rating of its logs (0 with none), and the tier of its log count. The rating loop and the tier steps are `SumOfRatings` and `PopularityOf`. |
| Service.TourService.CreateTour | src/main/java/com/tourplanner/backend/services/TourService.java:43-56 | `createTour` adds exactly one tour, under a fresh id, holding the seven supplied fields. The counter advances, the log store is unchanged, and the new tour has no logs. |
| Service.TourService.DeleteTour | src/main/java/com/tourplanner/backend/services/TourService.java:58-62 | `deleteTour` removes the id if it is present, with no existence check and no failure. The log store is unchanged. |
| Service.TourService.UpdateTour | src/main/java/com/tourplanner/backend/services/TourService.java:64-80 | `updateTour` fails with NOT_FOUND "Tour not found" and changes nothing when the id is absent. Otherwise it overwrites all seven fields, keeps the id, leaves other tours and all logs alone, and returns the new fields with freshly computed stats. |
| Service.TourService.CreateTourLog | src/main/java/com/tourplanner/backend/services/TourService.java:153-172 | A missing tour gives NOT_FOUND "Tour not found", checked before the date. A malformed date gives the date-format IllegalArgument. Neither failure stores anything. On success exactly one log is added under a fresh id, with `tourId` as parent, and its view echoes the supplied fields. |
| Service.TourService.DeleteTourLog | src/main/java/com/tourplanner/backend/services/TourService.java:174-189 | An absent log gives NOT_FOUND "Tour Log not found". A log of another tour gives NOT_FOUND "Tour Id of Tour Log doesn't match given Tour Id". In both cases nothing changes. Otherwise only that one log is removed. Tours are never touched. |
| Service.TourService.GetTourLogs | src/main/java/com/tourplanner/backend/services/TourService.java:191-195 | `getTourLogs` returns one view per log whose parent id is `tourId`, exactly those, in ascending id order. An id never handed out gives an empty list, not an error. |
| Service.TourService.UpdateTourLog | src/main/java/com/tourplanner/backend/services/TourService.java:197-220 | The absent-log and wrong-tour checks of `deleteTourLog` come first, then the date parse. Any failure leaves the store unchanged. On success the six fields are overwritten, the parent is kept, and the new view is returned. |
| ServiceProperties.UpdateThenList | src/main/java/com/tourplanner/backend/services/TourService.java:64-80 | After an update the listing has the same tours in the same order. The updated tour shows exactly the new fields with recomputed stats, and every other view is as before. |
| ServiceProperties.CreateLogThenListIds | src/main/java/com/tourplanner/backend/services/TourService.java:169 | A saved log's id is appended to its tour's log list. Every other tour's list stays as it was. |
| ServiceProperties.CreateLogThenStats | src/main/java/com/tourplanner/backend/services/TourService.java:104-122 | After a log is created for a tour, the tour's next view counts one more log and adds the new rating to the sum. Its tier never drops. |
| ServiceProperties.UpdateLogKeepsListing | src/main/java/com/tourplanner/backend/services/TourService.java:211-217 | A log update keeps the parent, so every tour's log list is unchanged. An update never moves a log to another tour. |
| ServiceProperties.UpdateLogThenLogs | src/main/java/com/tourplanner/backend/services/TourService.java:211-217 | After a log update, the tour's logs hold the new record in the same place, with the other entries as before. |
| ServiceProperties.StatsUseListedLogs | src/main/java/com/tourplanner/backend/services/TourService.java:104 | A tour's stats are taken over exactly the logs `getTourLogs` lists for it, in the same order, rating for rating. |

## Left out

- `generateAllToursPdf` (the PDF report) is not modelled. Its bytes come from an external PDF library and from float-to-text conversion.
- The HTTP controller is not modelled. It routes requests and sets headers, and holds no rules.
- Spring Data and JPA are replaced by two maps and two id counters. Not modelled:
  - the SQL behaviour behind the repositories;
  - the database's foreign key on a log's parent, which may refuse to delete a tour that still has logs;
  - ids that are not handed out in ascending order.
- `findAll` and `findByTourId` return records in ascending id order in the model. The repositories themselves promise no order.
- The DTO classes become datatypes. Their getters and setters are left out.
- Logging is left out.
- Distances, times and the average rating are reals. Float rounding is not modelled.
- Ids and ratings are unbounded integers. Overflow of the 64-bit id counter is not modelled.
- `Service.TourService.GetTourLogs`: a log view keeps the parsed date rather than its `LocalDateTime.toString` text.
- Null arguments, such as a null DTO or a null tour id, are not modelled. The model's values are never null.
- Concurrency and transactions are not modelled. Each operation runs alone.
- The tests that expect bad transport types, locations or ratings to be rejected state no property of this model. The service performs no such checks, so it accepts those values.
- `Dates.FormatThenParse`: stated only for years 1 to 9999. `LocalDate.toString` writes a `+` before longer years, and that is not modelled.
