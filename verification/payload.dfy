/** The nested showtime response of the remote service and the per-show record the
    parser derives from it (bms1.py:135-191). A JSON key that is absent is `None` where
    the source reads it with a default of its own; an absent list is an empty sequence,
    which the source treats alike (`.get(key, [])`). */
module Payload {
  import opened Util
  import opened Dict

  /** One seating category (`Categories[]`); prices are in the smallest currency unit. */
  datatype Category = Category(maxSeats: Option<int>, seatsAvail: Option<int>, curPrice: Option<int>)

  /** One show time (`ShowTimes[]`). */
  datatype ShowTime = ShowTime(
    showDateCode: Option<string>,
    showDateTime: Option<string>,
    showTime: Option<string>,
    sessionId: Option<string>,
    attributes: Option<string>,
    categories: seq<Category>)

  /** One format/language variant of a film (`ChildEvents[]`). */
  datatype ChildEvent = ChildEvent(dimension: Option<string>, language: Option<string>, showTimes: seq<ShowTime>)

  /** One film (`Event[]`). */
  datatype Event = Event(title: Option<string>, childEvents: seq<ChildEvent>)

  /** The `Venues` object; an absent `Venues` reads as all fields absent. */
  datatype VenueInfo = VenueInfo(name: Option<string>, address: Option<string>, compName: Option<string>)

  /** One `ShowDetails[]` block. */
  datatype ShowDetail = ShowDetail(venues: VenueInfo, events: seq<Event>)

  /** The whole response body. */
  datatype ShowtimesPayload = ShowtimesPayload(showDetails: seq<ShowDetail>)

  /** The JSON object `{}`. */
  const EmptyPayload := ShowtimesPayload([])

  /** One retained show time at one venue. */
  datatype ShowRecord = ShowRecord(
    venue: string,
    address: string,
    chain: string,
    time: Option<string>,
    sessionId: Option<string>,
    audi: string,
    total: int,
    available: int,
    sold: int,
    gross: int)

  /** The parser's output: movie label to its records, in first-seen label order. */
  type MovieGroups = Dict<string, seq<ShowRecord>>
}
