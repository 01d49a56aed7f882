// The JSON documents the pages and the Express server exchange.

module Api {
  import opened Common
  import opened Itinerary

  /**
   * Body of `POST /api/trips`.  `userId` is `""` when missing; `itinerary`
   * is `None` when the field is absent.
   */
  datatype TripBody = TripBody(
    userId: string,
    tripName: string,
    country: string,
    startDate: string,
    endDate: string,
    daysCount: Option<int>,
    itinerary: Option<seq<Day>>)

  /** The part of the reply to `POST /api/trips` the pages read: its `id`, if any. */
  datatype PostReply = PostReply(id: Option<JsId>)

  /**
   * A row of `GET /api/trips/:userId`: the trip without its itinerary.
   * `createdAt` is the row's creation time in milliseconds, `None` when absent.
   */
  datatype TripListRow = TripListRow(
    id: JsId,
    tripName: string,
    country: string,
    startDate: string,
    endDate: string,
    daysCount: Option<int>,
    createdAt: Option<int>)

  /**
   * A trip as `GET /api/trip/:id` returns it.  `itinerary` is `None` when
   * the field is not an array.
   */
  datatype TripRecord = TripRecord(
    id: JsId,
    userId: string,
    tripName: string,
    country: string,
    startDate: string,
    endDate: string,
    daysCount: Option<int>,
    itinerary: Option<seq<Day>>)
}
