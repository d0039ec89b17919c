/**
 * Client methods that call the handlers and assert, from their contracts
 * alone, the outcome of the
 * single-room booking, the minimum-charge refusal, and the ways the success
 * handler as written lets occupancy pass capacity.
 */
module Scenarios {
  import opened Common
  import opened Catalog
  import opened Bookings
  import opened StoreModel

  /** A store holding one listing with id 1. */
  method WithListing(priceCents: int, capacity: int) returns (s: Store)
    ensures fresh(s) && s.Valid()
    ensures s.accommodations == map[1 := NewAccommodation(priceCents, capacity)]
    ensures s.bookings == map[] && s.reviews == []
  {
    s := new Store();
    s.accommodations := map[1 := NewAccommodation(priceCents, capacity)];
  }

  /** A listing at R 1000 (100000 cents) a month, booked by user 7 for a semester, checkout session `cs_1` open. */
  method WithOpenCheckout(capacity: int) returns (s: Store, id: Id)
    requires capacity > 0
    ensures fresh(s) && s.Valid()
    ensures s.accommodations == map[1 := NewAccommodation(100000, capacity)]
    ensures s.bookings == map[id := Booking(7, 1, "semester", 5, 500000, Approved, Some("cs_1"))]
    ensures s.reviews == []
  {
    s := WithListing(100000, capacity);
    var r := s.Book(7, 1, Some("semester"), SessionCreated("cs_1"));
    assert r.CheckoutStarted?;
    id := r.booking;
  }

  /** One room at R 1000 (100000 cents) a month: a semester costs 500000 cents (R 5000), and paying fills the room and withdraws the listing. */
  method SemesterBookingFillsSingleRoom()
  {
    var s, id := WithOpenCheckout(1);
    assert SessionKnown(s.bookings, Some("cs_1")) by { assert s.bookings[id].sessionId == Some("cs_1"); }
    var c := s.PaymentSuccess(Some("cs_1"), Retrieved("paid"));
    assert c == Confirmed(id);
    assert s.accommodations == map[1 := RecordPayment(NewAccommodation(100000, 1))];
    assert s.accommodations[1].occupancy == 1 && !s.accommodations[1].isActive;
    assert s.bookings == map[id := MarkPaid(Booking(7, 1, "semester", 5, 500000, Approved, Some("cs_1")))];
    assert s.bookings[id].status == Paid;
  }

  /** After paying, the user may review the listing once. */
  method PaidUserReviewsOnce()
  {
    var s, id := WithOpenCheckout(1);
    assert SessionKnown(s.bookings, Some("cs_1")) by { assert s.bookings[id].sessionId == Some("cs_1"); }
    var c := s.PaymentSuccess(Some("cs_1"), Retrieved("paid"));
    assert c == Confirmed(id);
    assert s.bookings[id].status == Paid;
    assert HasPaidBooking(s.bookings, 7, 1);
    var review := s.SubmitReview(7, 1, 5, "quiet and close to campus", true);
    assert review == ReviewAdded;
    assert s.reviews[0].user == 7 && s.reviews[0].accommodation == 1;
    review := s.SubmitReview(7, 1, 4, "second thoughts", true);
    assert review == AlreadyReviewed && |s.reviews| == 1;
  }

  /** An annual booking records ten months. */
  method AnnualBookingTenMonths()
  {
    var s := WithListing(250000, 3);
    var r := s.Book(7, 1, Some("annual"), SessionCreated("cs_2"));
    assert r.CheckoutStarted?;
    assert s.bookings[r.booking].months == 10 && s.bookings[r.booking].totalCents == 2500000;
  }

  /** A total of 40 cents is under the minimum charge: nothing is stored. */
  method TotalBelowMinimumRefused()
  {
    var s := WithListing(8, 1);
    var r := s.Book(7, 1, Some("semester"), SessionCreated("cs_3"));
    assert r == BelowMinimum && s.bookings == map[];
  }

  /** When the provider refuses the checkout session, the booking it was for is gone again. */
  method ProviderFailureLeavesNoBooking()
  {
    var s := WithListing(100000, 1);
    var r := s.Book(7, 1, Some("semester"), CreateFailed);
    assert r == PaymentSetupFailed && s.bookings == map[];
  }

  /** Reloading the success page counts the same payment twice: occupancy 2 in a room for 1. */
  method ReplayedConfirmationOvercounts()
  {
    var s, id := WithOpenCheckout(1);
    assert SessionKnown(s.bookings, Some("cs_1")) by { assert s.bookings[id].sessionId == Some("cs_1"); }
    var c := s.PaymentSuccess(Some("cs_1"), Retrieved("paid"));
    assert c == Confirmed(id);
    assert s.accommodations[1].occupancy == 1;
    assert s.bookings.Keys == {id} && s.bookings[id].sessionId == Some("cs_1");
    assert SessionKnown(s.bookings, Some("cs_1")) by { assert s.bookings[id].sessionId == Some("cs_1"); }
    c := s.PaymentSuccess(Some("cs_1"), Retrieved("paid"));
    assert c == Confirmed(id);
    assert s.accommodations[1].occupancy == 2 > s.accommodations[1].capacity;
  }

  /** With the prior-status guard the reload changes nothing: occupancy stays 1. */
  method ReplayedConfirmationCountedOnce()
  {
    var s, id := WithOpenCheckout(1);
    assert SessionKnown(s.bookings, Some("cs_1")) by { assert s.bookings[id].sessionId == Some("cs_1"); }
    var c := s.PaymentSuccessOnce(Some("cs_1"), Retrieved("paid"));
    assert c == Confirmed(id);
    assert s.accommodations[1].occupancy == 1;
    assert s.bookings.Keys == {id} && s.bookings[id] == Booking(7, 1, "semester", 5, 500000, Paid, Some("cs_1"));
    assert SessionKnown(s.bookings, Some("cs_1")) by { assert s.bookings[id].sessionId == Some("cs_1"); }
    c := s.PaymentSuccessOnce(Some("cs_1"), Retrieved("paid"));
    assert c == AlreadySettled(id);
    assert s.accommodations[1].occupancy == 1;
  }

  /** A booking cancelled and then paid at the provider turns from cancelled to paid as written. */
  method CancelledBookingLaterPaid()
  {
    var s, id := WithOpenCheckout(2);
    var cancel := s.PaymentCancel(id);
    assert s.bookings == map[id := Booking(7, 1, "semester", 5, 500000, Cancelled, Some("cs_1"))];
    assert SessionKnown(s.bookings, Some("cs_1")) by { assert s.bookings[id].sessionId == Some("cs_1"); }
    var c := s.PaymentSuccess(Some("cs_1"), Retrieved("paid"));
    assert c == Confirmed(id) && s.bookings[id].status == Paid;
    assert !AllowedMove(Cancelled, s.bookings[id].status);
  }

  /** With the prior-status guard a cancelled booking stays cancelled when the provider later reports it paid. */
  method CancelledBookingStaysCancelled()
  {
    var s, id := WithOpenCheckout(2);
    var cancel := s.PaymentCancel(id);
    assert s.bookings == map[id := Booking(7, 1, "semester", 5, 500000, Cancelled, Some("cs_1"))];
    assert SessionKnown(s.bookings, Some("cs_1")) by { assert s.bookings[id].sessionId == Some("cs_1"); }
    var c := s.PaymentSuccessOnce(Some("cs_1"), Retrieved("paid"));
    assert c == AlreadySettled(id) && s.bookings[id].status == Cancelled;
    assert s.accommodations[1].occupancy == 0;
  }

  /** The single room of `WithOpenCheckout` with a second approved booking, by user 8 under session `cs_2`. */
  method WithTwoOpenCheckouts() returns (s: Store, a: Id, b: Id)
    ensures fresh(s) && s.Valid() && a != b
    ensures s.accommodations == map[1 := NewAccommodation(100000, 1)]
    ensures s.bookings == map[
      a := Booking(7, 1, "semester", 5, 500000, Approved, Some("cs_1")),
      b := Booking(8, 1, "annual", 10, 1000000, Approved, Some("cs_2"))]
  {
    s, a := WithOpenCheckout(1);
    var r := s.Book(8, 1, Some("annual"), SessionCreated("cs_2"));
    assert r.CheckoutStarted?;
    b := r.booking;
  }

  /** Two approved bookings for the last place both get paid: no handler checks capacity at payment time. */
  method TwoApprovedBookingsOverfill()
  {
    var s, a, b := WithTwoOpenCheckouts();
    assert SessionKnown(s.bookings, Some("cs_1")) by { assert s.bookings[a].sessionId == Some("cs_1"); }
    var c := s.PaymentSuccessOnce(Some("cs_1"), Retrieved("paid"));
    assert c == Confirmed(a);
    assert s.accommodations[1].occupancy == 1;
    assert s.bookings[b] == Booking(8, 1, "annual", 10, 1000000, Approved, Some("cs_2"));
    assert SessionKnown(s.bookings, Some("cs_2")) by { assert s.bookings[b].sessionId == Some("cs_2"); }
    c := s.PaymentSuccessOnce(Some("cs_2"), Retrieved("paid"));
    assert c == Confirmed(b);
    assert s.accommodations[1].occupancy == 2 > s.accommodations[1].capacity;
  }
}
