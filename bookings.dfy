/**
 * The Booking table (models.py) and the pure parts of the booking handler:
 * the month count of a duration choice, the provider's minimum charge, and
 * what each payment callback does to one booking row.
 */
module Bookings {
  import opened Common

  /** The lifecycle states a booking's `status` column takes. */
  datatype Status = Approved | Paid | Cancelled

  /** One booking row; the total is in cents and the session id is the payment provider's checkout id. */
  datatype Booking = Booking(
    user: Id,
    accommodation: Id,
    duration: string,
    months: int,
    totalCents: int,
    status: Status,
    sessionId: Option<string>)

  /** The smallest total the payment provider will charge: 50 cents. */
  const MinChargeCents: int := 50

  /** The duration choice `annual` books ten months; any other choice, or none, books five. */
  function MonthsFor(duration: Option<string>): (months: int)
    ensures months == 10 <==> duration == Some("annual")
    ensures months == 5 <==> duration != Some("annual")
  {
    if duration == Some("annual") then 10 else 5
  }

  /** A booking as the handler first stores it: approved, with no checkout session yet. */
  function NewBooking(user: Id, accommodation: Id, duration: string, months: int, totalCents: int): (b: Booking)
    ensures b.status == Approved && b.sessionId == None
    ensures b.user == user && b.accommodation == accommodation && b.duration == duration
    ensures b.months == months && b.totalCents == totalCents
  {
    Booking(user, accommodation, duration, months, totalCents, Approved, None)
  }

  /** The lifecycle's moves: a booking stays where it is, or leaves `approved` (for `paid` or `cancelled`). */
  predicate AllowedMove(from: Status, to: Status) {
    from == to || from == Approved
  }

  /** The booking after the cancel callback: an approved booking becomes cancelled; paid and cancelled ones stay as they are. */
  function Cancel(b: Booking): (r: Booking)
    ensures AllowedMove(b.status, r.status) && r.status != Approved
    ensures r.status == Paid <==> b.status == Paid
    ensures r.(status := b.status) == b
  {
    if b.status == Approved then b.(status := Cancelled) else b
  }

  /** The booking after the success callback, as the handler writes it: paid, whatever its status was. */
  function MarkPaid(b: Booking): (r: Booking)
    ensures r.status == Paid
    ensures r.(status := b.status) == b
  {
    b.(status := Paid)
  }

  /** Marking a cancelled booking paid is a move the lifecycle does not allow. */
  lemma MarkPaidLeavesLifecycle(b: Booking)
    requires b.status == Cancelled
    ensures !AllowedMove(b.status, MarkPaid(b).status)
  {
  }

  /** The success callback guarded on the prior status: only an approved booking becomes paid. */
  function MarkPaidOnce(b: Booking): (r: Booking)
    ensures AllowedMove(b.status, r.status) && r.status != Approved
    ensures r.status == Cancelled <==> b.status == Cancelled
    ensures r.(status := b.status) == b
  {
    if b.status == Approved then b.(status := Paid) else b
  }

  /** Applying the guarded callback a second time changes nothing. */
  lemma MarkPaidOnceIdempotent(b: Booking)
    ensures MarkPaidOnce(MarkPaidOnce(b)) == MarkPaidOnce(b)
  {
  }

  /** Whether the user holds a paid booking for the accommodation. */
  predicate HasPaidBooking(bookings: map<Id, Booking>, user: Id, accommodation: Id) {
    exists id :: id in bookings && bookings[id].user == user
      && bookings[id].accommodation == accommodation && bookings[id].status == Paid
  }
}
