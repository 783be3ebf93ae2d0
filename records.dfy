/** The documents the booking core reads and writes. */
module Records {

  /** Document ids (MongoDB object ids); one id space per collection. */
  type BookingId = nat
  type ChargerId = nat
  type UserId = nat

  /** A booking's lifecycle state. */
  datatype State = PENDING | UNPAID | PAID | COMPLETED

  /**
   * A reservation of a charger by a client over [timeStart, timeEnd] (milliseconds).
   * cost is in hundredths of the currency unit, the two-decimal figure computed at creation.
   */
  datatype Booking = Booking(
    charger: ChargerId,
    client: UserId,
    timeStart: int,
    timeEnd: int,
    state: State,
    cost: int,
    userFeedback: bool,
    accepted: bool)

  /** A charger, read-only here; rate is the hourly price the source stores as `cost`. */
  datatype Charger = Charger(
    owner: UserId,
    rate: real,
    address: string,
    city: string,
    province: string,
    chargername: string)

  datatype User = User(name: string)

  /** The type tag of a notification. */
  datatype Tag = NEWREQ | ACCEPTED | DECLINED | PAID | CANCELLED

  /** An unread-by-default message about a booking, addressed to one user. */
  datatype Notification = Notification(booking: BookingId, user: UserId, tag: Tag, read: bool)

  /** A review of a charger; content stands for the review's remaining fields, copied as they are. */
  datatype Review = Review(reviewee: ChargerId, reviewer: UserId, content: string)

  /** What a route answers, as a kind: 200/201, 404, 400, 500. */
  datatype Status = Ok | NotFound | BadRequest | ServerError
}
