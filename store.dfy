/**
 * The request handlers of app.py that change the database, over an
 * in-memory store. Each table is a field of `Store`; a handler updates a
 * row by writing the changed row back under its id, adds a row by choosing
 * a fresh id, and deletes one by removing its id. The payment provider is
 * an argument: what its session-create call returned, and what its
 * session-retrieve call reported.
 */
module StoreModel {
  import opened Common
  import opened Catalog
  import opened Bookings
  import opened Reviews
  import opened Favorites
  import opened Accounts

  /** The provider's answer to a checkout-session request. */
  datatype CreateOutcome = SessionCreated(sessionId: string) | CreateFailed

  /** The provider's answer to a session lookup. */
  datatype RetrieveOutcome = RetrieveFailed | Retrieved(paymentStatus: string)

  /** What the booking handler ends with. */
  datatype BookResult =
    | BookingError              // the accommodation is missing, or the row could not be stored
    | FullyBooked
    | BelowMinimum
    | PaymentSetupFailed        // the provider refused; the booking was removed again
    | CheckoutStarted(booking: Id, sessionId: string)

  /** What the payment-success handler ends with. */
  datatype ConfirmResult =
    | InvalidSession            // no session id in the request
    | VerificationFailed        // the lookup failed, or the booking's accommodation is gone
    | NotPaid                   // the provider reports another status
    | NoBooking                 // no booking carries the session id
    | AlreadySettled(booking: Id)  // only in the guarded variant: the booking was not approved
    | Confirmed(booking: Id)

  /** What the payment-cancel handler ends with. */
  datatype CancelResult = CancelError | CancelShown

  /** The flags the accommodation page renders for its viewer. */
  datatype DetailView = DetailView(canReview: bool, isFavorite: bool)

  /** What the review handler ends with. */
  datatype ReviewResult = NoPaidBooking | AlreadyReviewed | FormInvalid | ReviewAdded

  /** A session id the success handler accepts: present and non-empty. */
  predicate GivenSession(sessionId: Option<string>) {
    sessionId.Some? && sessionId.value != ""
  }

  /** Whether some booking carries the session id. */
  predicate SessionKnown(bookings: map<Id, Booking>, sessionId: Option<string>) {
    exists id :: id in bookings && bookings[id].sessionId == sessionId
  }

  class Store {
    var accommodations: map<Id, Accommodation>
    var bookings: map<Id, Booking>
    var reviews: seq<Review>
    var favorites: set<Pair>
    var users: map<Id, User>
    /** The id the next booking receives; ids are chosen fresh, and the model does not reuse them. */
    var nextBookingId: Id

    /** Booking ids lie below the next one, and reviews are unique per (user, accommodation). */
    ghost predicate Valid()
      reads this
    {
      (forall id :: id in bookings ==> id < nextBookingId) && UniquePerPair(reviews)
    }

    /** An empty database. */
    constructor ()
      ensures Valid()
      ensures accommodations == map[] && bookings == map[] && reviews == []
      ensures favorites == {} && users == map[] && nextBookingId == 0
    {
      accommodations, bookings, reviews := map[], map[], [];
      favorites, users, nextBookingId := {}, map[], 0;
    }

    /**
     * `accommodation_detail`: a missing or withdrawn listing redirects (None);
     * otherwise the review form is offered to a signed-in viewer who has paid
     * and not yet reviewed, and the favourite mark shows whether the viewer
     * saved the listing. An anonymous viewer gets neither.
     */
    function Detail(viewer: Option<Id>, accId: Id): (page: Option<DetailView>)
      reads this
      ensures page.Some? <==> accId in accommodations && accommodations[accId].isActive
      ensures page.Some? ==>
        (page.value.canReview <==> viewer.Some? && CanReview(bookings, reviews, viewer.value, accId)) &&
        (page.value.isFavorite <==> viewer.Some? && (viewer.value, accId) in favorites)
    {
      if accId !in accommodations || !accommodations[accId].isActive then None
      else if viewer.None? then Some(DetailView(false, false))
      else
        var user := viewer.value;
        var hasBooked := HasPaidBooking(bookings, user, accId);
        var existingReview := HasReview(reviews, user, accId);
        Some(DetailView(hasBooked && !existingReview, (user, accId) in favorites))
    }

    /**
     * `book`: refuses a missing or full accommodation and a total under the
     * minimum charge; otherwise stores an approved booking, asks the
     * provider for a checkout session, and either records the session id
     * or deletes the booking again.
     */
    method Book(user: Id, accId: Id, duration: Option<string>, provider: CreateOutcome) returns (r: BookResult)
      requires Valid()
      modifies this
      ensures Valid()
      ensures accommodations == old(accommodations) && reviews == old(reviews)
      ensures favorites == old(favorites) && users == old(users)
      ensures accId !in old(accommodations) ==> r == BookingError
      ensures accId in old(accommodations) ==>
        var a := old(accommodations)[accId];
        var months := MonthsFor(duration);
        var total := a.priceCents * months;
        (r == FullyBooked <==> IsFull(a)) &&
        (r == BelowMinimum <==> !IsFull(a) && total < MinChargeCents) &&
        (r == BookingError <==> !IsFull(a) && total >= MinChargeCents && duration == None) &&
        (r == PaymentSetupFailed <==> !IsFull(a) && total >= MinChargeCents && duration.Some? && provider == CreateFailed) &&
        (r.CheckoutStarted? ==>
          duration.Some? && provider == SessionCreated(r.sessionId) &&
          r.booking !in old(bookings) &&
          bookings == old(bookings)[r.booking := NewBooking(user, accId, duration.value, months, total).(sessionId := Some(r.sessionId))])
      ensures !r.CheckoutStarted? ==> bookings == old(bookings)
    {
      if accId !in accommodations {
        return BookingError;
      }
      var acc := accommodations[accId];
      if IsFull(acc) {
        return FullyBooked;
      }
      var months := MonthsFor(duration);
      var total := acc.priceCents * months;
      if total < MinChargeCents {
        return BelowMinimum;
      }
      if duration == None {
        // the duration column is NOT NULL: the insert is refused
        return BookingError;
      }
      var id := nextBookingId;
      nextBookingId := nextBookingId + 1;
      bookings := bookings[id := NewBooking(user, accId, duration.value, months, total)];
      match provider
      case CreateFailed =>
        bookings := bookings - {id};
        assert bookings == old(bookings);
        r := PaymentSetupFailed;
      case SessionCreated(sid) =>
        bookings := bookings[id := bookings[id].(sessionId := Some(sid))];
        r := CheckoutStarted(id, sid);
    }

    /**
     * `payment_success` as written: when the provider reports the session
     * paid, a booking with that session id becomes paid and its
     * accommodation takes one more place, whatever the booking's status
     * was before.
     */
    method PaymentSuccess(sessionId: Option<string>, provider: RetrieveOutcome) returns (r: ConfirmResult)
      requires Valid()
      modifies this
      ensures Valid()
      ensures reviews == old(reviews) && favorites == old(favorites)
      ensures users == old(users) && nextBookingId == old(nextBookingId)
      ensures r == InvalidSession <==> !GivenSession(sessionId)
      ensures r == NotPaid <==> GivenSession(sessionId) && provider.Retrieved? && provider.paymentStatus != "paid"
      ensures GivenSession(sessionId) && provider == RetrieveFailed ==> r == VerificationFailed
      ensures r == NoBooking <==>
        GivenSession(sessionId) && provider == Retrieved("paid") && !SessionKnown(old(bookings), sessionId)
      ensures !r.AlreadySettled?
      ensures r.Confirmed? ==>
        var id := r.booking;
        id in old(bookings) && old(bookings)[id].sessionId == sessionId &&
        provider == Retrieved("paid") &&
        var aid := old(bookings)[id].accommodation;
        aid in old(accommodations) &&
        bookings == old(bookings)[id := MarkPaid(old(bookings)[id])] &&
        accommodations == old(accommodations)[aid := RecordPayment(old(accommodations)[aid])]
      ensures GivenSession(sessionId) && provider == Retrieved("paid") && SessionKnown(old(bookings), sessionId) &&
        (forall id :: id in old(bookings) && old(bookings)[id].sessionId == sessionId ==>
          old(bookings)[id].accommodation in old(accommodations))
        ==> r.Confirmed?
      ensures r == VerificationFailed ==>
        provider == RetrieveFailed ||
        exists id :: id in old(bookings) && old(bookings)[id].sessionId == sessionId &&
          old(bookings)[id].accommodation !in old(accommodations)
      ensures !r.Confirmed? ==> bookings == old(bookings) && accommodations == old(accommodations)
    {
      if !GivenSession(sessionId) {
        return InvalidSession;
      }
      if provider == RetrieveFailed {
        return VerificationFailed;
      }
      if provider.paymentStatus != "paid" {
        return NotPaid;
      }
      if !SessionKnown(bookings, sessionId) {
        return NoBooking;
      }
      var id :| id in bookings && bookings[id].sessionId == sessionId;
      var booking := bookings[id];
      booking := booking.(status := Paid);
      if booking.accommodation !in accommodations {
        // the handler fails on the missing row before committing anything
        return VerificationFailed;
      }
      var acc := accommodations[booking.accommodation];
      acc := acc.(occupancy := acc.occupancy + 1);
      if acc.occupancy >= acc.capacity {
        acc := acc.(isActive := false);
      }
      bookings := bookings[id := booking];
      accommodations := accommodations[booking.accommodation := acc];
      r := Confirmed(id);
    }

    /**
     * The success handler with the prior-status guard it lacks: only an
     * approved booking is marked paid and counted; for a booking already
     * paid or cancelled nothing changes.
     */
    method PaymentSuccessOnce(sessionId: Option<string>, provider: RetrieveOutcome) returns (r: ConfirmResult)
      requires Valid()
      modifies this
      ensures Valid()
      ensures reviews == old(reviews) && favorites == old(favorites)
      ensures users == old(users) && nextBookingId == old(nextBookingId)
      ensures r == InvalidSession <==> !GivenSession(sessionId)
      ensures r == NotPaid <==> GivenSession(sessionId) && provider.Retrieved? && provider.paymentStatus != "paid"
      ensures GivenSession(sessionId) && provider == RetrieveFailed ==> r == VerificationFailed
      ensures r == NoBooking <==>
        GivenSession(sessionId) && provider == Retrieved("paid") && !SessionKnown(old(bookings), sessionId)
      ensures r.AlreadySettled? ==>
        r.booking in old(bookings) && old(bookings)[r.booking].sessionId == sessionId &&
        old(bookings)[r.booking].status != Approved
      ensures r.Confirmed? ==>
        var id := r.booking;
        id in old(bookings) && old(bookings)[id].sessionId == sessionId &&
        old(bookings)[id].status == Approved && provider == Retrieved("paid") &&
        var aid := old(bookings)[id].accommodation;
        aid in old(accommodations) &&
        bookings == old(bookings)[id := MarkPaidOnce(old(bookings)[id])] &&
        accommodations == old(accommodations)[aid := RecordPayment(old(accommodations)[aid])]
      ensures GivenSession(sessionId) && provider == Retrieved("paid") && SessionKnown(old(bookings), sessionId) &&
        (forall id :: id in old(bookings) && old(bookings)[id].sessionId == sessionId ==>
          old(bookings)[id].accommodation in old(accommodations) && old(bookings)[id].status == Approved)
        ==> r.Confirmed?
      ensures GivenSession(sessionId) && provider == Retrieved("paid") && SessionKnown(old(bookings), sessionId) &&
        (forall id :: id in old(bookings) && old(bookings)[id].sessionId == sessionId ==>
          old(bookings)[id].status != Approved)
        ==> r.AlreadySettled?
      ensures r == VerificationFailed ==>
        provider == RetrieveFailed ||
        exists id :: id in old(bookings) && old(bookings)[id].sessionId == sessionId &&
          old(bookings)[id].accommodation !in old(accommodations)
      ensures !r.Confirmed? ==> bookings == old(bookings) && accommodations == old(accommodations)
      ensures bookings.Keys == old(bookings.Keys)
      ensures forall id :: id in old(bookings) ==> AllowedMove(old(bookings)[id].status, bookings[id].status)
    {
      if !GivenSession(sessionId) {
        return InvalidSession;
      }
      if provider == RetrieveFailed {
        return VerificationFailed;
      }
      if provider.paymentStatus != "paid" {
        return NotPaid;
      }
      if !SessionKnown(bookings, sessionId) {
        return NoBooking;
      }
      var id :| id in bookings && bookings[id].sessionId == sessionId;
      var booking := bookings[id];
      if booking.status != Approved {
        return AlreadySettled(id);
      }
      booking := booking.(status := Paid);
      if booking.accommodation !in accommodations {
        return VerificationFailed;
      }
      var acc := accommodations[booking.accommodation];
      acc := acc.(occupancy := acc.occupancy + 1);
      if acc.occupancy >= acc.capacity {
        acc := acc.(isActive := false);
      }
      bookings := bookings[id := booking];
      accommodations := accommodations[booking.accommodation := acc];
      r := Confirmed(id);
    }

    /** `payment_cancel`: an approved booking becomes cancelled; a paid or cancelled one is left alone. */
    method PaymentCancel(bookingId: Id) returns (r: CancelResult)
      requires Valid()
      modifies this
      ensures Valid()
      ensures accommodations == old(accommodations) && reviews == old(reviews) && favorites == old(favorites)
      ensures users == old(users) && nextBookingId == old(nextBookingId)
      ensures r == CancelError <==> bookingId !in old(bookings)
      ensures bookings == if r == CancelError then old(bookings) else old(bookings)[bookingId := Cancel(old(bookings)[bookingId])]
    {
      if bookingId !in bookings {
        return CancelError;
      }
      var booking := bookings[bookingId];
      if booking.status == Approved {
        booking := booking.(status := Cancelled);
        bookings := bookings[bookingId := booking];
      }
      r := CancelShown;
    }

    /**
     * `submit_review`: refused without a paid booking for the pair, or when
     * the pair already has a review; stored when the form validates.
     */
    method SubmitReview(user: Id, accId: Id, rating: int, comment: string, formValid: bool) returns (r: ReviewResult)
      requires Valid()
      modifies this
      ensures Valid()
      ensures accommodations == old(accommodations) && bookings == old(bookings) && favorites == old(favorites)
      ensures users == old(users) && nextBookingId == old(nextBookingId)
      ensures r == NoPaidBooking <==> !HasPaidBooking(old(bookings), user, accId)
      ensures r == AlreadyReviewed <==> HasPaidBooking(old(bookings), user, accId) && HasReview(old(reviews), user, accId)
      ensures r == FormInvalid <==> CanReview(old(bookings), old(reviews), user, accId) && !formValid
      ensures r == ReviewAdded <==> CanReview(old(bookings), old(reviews), user, accId) && formValid
      ensures reviews == if r == ReviewAdded then old(reviews) + [Review(user, accId, rating, comment)] else old(reviews)
    {
      if !HasPaidBooking(bookings, user, accId) {
        return NoPaidBooking;
      }
      if HasReview(reviews, user, accId) {
        return AlreadyReviewed;
      }
      if !formValid {
        return FormInvalid;
      }
      var review := Review(user, accId, rating, comment);
      InsertKeepsUnique(reviews, review);
      reviews := reviews + [review];
      r := ReviewAdded;
    }

    /** `toggle_favorite`: removes the pair if present, adds it if not, and reports which. */
    method ToggleFavorite(user: Id, accId: Id) returns (status: ToggleStatus)
      requires Valid()
      modifies this
      ensures Valid()
      ensures accommodations == old(accommodations) && bookings == old(bookings) && reviews == old(reviews)
      ensures users == old(users) && nextBookingId == old(nextBookingId)
      ensures (favorites, status) == Toggle(old(favorites), (user, accId))
    {
      if (user, accId) in favorites {
        favorites := favorites - {(user, accId)};
        status := Removed;
      } else {
        favorites := favorites + {(user, accId)};
        status := Added;
      }
    }

    /** `admin_promote_user`: an admin makes another existing user an admin. */
    method PromoteUser(actor: Id, target: Id) returns (r: AdminChange)
      requires Valid() && actor in users
      modifies this
      ensures Valid()
      ensures accommodations == old(accommodations) && bookings == old(bookings) && reviews == old(reviews)
      ensures favorites == old(favorites) && nextBookingId == old(nextBookingId)
      ensures r == CheckAdminChange(old(users), actor, target)
      ensures users == SetAdmin(old(users), actor, target, true)
    {
      r := CheckAdminChange(users, actor, target);
      if r == Changed {
        users := users[target := users[target].(isAdmin := true)];
      }
    }

    /** `admin_demote_user`: an admin takes the admin flag from another existing user. */
    method DemoteUser(actor: Id, target: Id) returns (r: AdminChange)
      requires Valid() && actor in users
      modifies this
      ensures Valid()
      ensures accommodations == old(accommodations) && bookings == old(bookings) && reviews == old(reviews)
      ensures favorites == old(favorites) && nextBookingId == old(nextBookingId)
      ensures r == CheckAdminChange(old(users), actor, target)
      ensures users == SetAdmin(old(users), actor, target, false)
    {
      r := CheckAdminChange(users, actor, target);
      if r == Changed {
        users := users[target := users[target].(isAdmin := false)];
      }
    }
  }
}
