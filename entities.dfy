/**
 * The records the tour service stores and the views it hands back.
 * Ids are the store keys; distances, times and the average rating are reals.
 */
module Entities {
  import opened Dates

  /** A planned route (`TourEntity` without its id). */
  datatype Tour = Tour(
    name: string,
    description: string,
    startLocation: string,
    endLocation: string,
    transportType: string,
    distance: real,
    estimatedTime: real)

  /** A recorded trip (`TourLogEntity` without its id); `tourId` is the id of its parent tour. */
  datatype TourLog = TourLog(
    dateTime: LocalDateTime,
    comment: string,
    difficulty: string,
    totalDistance: real,
    totalTime: real,
    rating: int,
    tourId: int)

  /** What a caller supplies to create or update a tour (`CreateTourDto`, `UpdateTourDto`). */
  datatype TourFields = TourFields(
    name: string,
    description: string,
    from: string,
    to: string,
    transportType: string,
    distance: real,
    estTime: real)

  /** What a caller supplies to create or update a tour log; the date is still text. */
  datatype TourLogFields = TourLogFields(
    dateTime: string,
    comment: string,
    difficulty: string,
    totalDistance: real,
    totalTime: real,
    rating: int)

  /** The read view of a tour (`TourDto`), with its statistics computed at read time. */
  datatype TourView = TourView(
    id: int,
    name: string,
    description: string,
    from: string,
    to: string,
    transportType: string,
    distance: real,
    estTime: real,
    avgRating: real,
    popularity: string)

  /** The read view of a tour log (`TourLogDto`). */
  datatype TourLogView = TourLogView(
    id: int,
    dateTime: LocalDateTime,
    comment: string,
    difficulty: string,
    totalDistance: real,
    totalTime: real,
    rating: int)
}
