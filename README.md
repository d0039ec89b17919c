# CampusStay booking core in Dafny

CampusStay is a student-housing web application: students browse accommodation
listings, book a room for a semester or a year, pay through a hosted checkout
page, and review the rooms they paid for; administrators manage listings and
users. This project models the part of it that is more than plumbing: the
booking and occupancy state machine in the request handlers of `app.py` and the
row helpers of `models.py`.

The database becomes one object, `StoreModel.Store`, whose fields are the
tables: accommodations and bookings as maps from id to row, users as a map to
their admin flag, reviews as the sequence of review rows, favourites as a set of
(user, accommodation) pairs. Each handler that writes is a method of `Store`
that changes those fields and states the whole new state in terms of the old
one. The payment provider is an argument of the two handlers that call it: the
outcome of the session-create call (a session id, or a failure) and of the
session-retrieve call (a payment status, or a failure). Money is whole cents;
the provider's minimum charge is 50 cents.

Modules, one per table or helper group:

- `Common` (common.dfy): ids and `Option`.
- `Catalog` (catalog.dfy): the accommodation row; spots left, fullness, the
  amenities column, the average rating, and the row after one more payment.
- `Amenities` (amenities.dfy): the encoding of the amenities column and its
  round trip.
- `Bookings` (bookings.dfy): the booking row, the duration-to-months rule, the
  row after the cancel and success callbacks, and the lifecycle's allowed moves.
- `Reviews` (reviews.dfy): the review row, the unique-per-pair constraint and
  the review gate.
- `Favorites` (favorites.dfy): the toggle.
- `Accounts` (accounts.dfy): the admin flag and the promote/demote guard.
- `Uploads` (uploads.dfy): the image file-name filter.
- `ViewHelpers` (view_helpers.dfy): amenity icons and star counts.
- `StoreModel` (store.dfy): the `Store` class and the handlers.
- `Scenarios` (scenarios.dfy): client methods that call the handlers and
  assert, from the handlers' contracts alone, the outcomes of the single-room
  semester booking (total 500000 cents, R 5000, paid, room full, listing withdrawn), the
  40-cent refusal, a provider failure, a review accepted once, and the
  sequences of calls that push occupancy past capacity.

Where what the code does differs from what it evidently intends, the model
follows the code:

- The booking handler refuses a full listing (app.py:302) and the success
  handler withdraws a listing once it is full (app.py:386-387), so occupancy is
  meant to stay within capacity. Fullness is checked only when a booking is
  created, though, so two approved bookings for the last place both get counted
  when paid (`Scenarios.TwoApprovedBookingsOverfill`), and a repeated success
  callback counts the same payment again. The store's invariant therefore does
  not include that bound.
- The cancel handler only moves a booking out of `approved` (app.py:404). The
  success handler does not look at the prior status, so a cancelled booking
  whose session is later paid becomes `paid`
  (`Scenarios.CancelledBookingLaterPaid`).
- The booking handler computes five months when the duration is missing, but
  the duration column is NOT NULL, so storing that booking fails and the handler
  ends in its general error branch with no row written. `Store.Book` returns
  `BookingError` then.
- A missing accommodation or booking (`get_or_404`) raises inside the handlers'
  `try` blocks, so it ends in the handler's error branch rather than a 404 page.
  The model returns the error result and changes nothing.

## Model

| member | source | states |
|---|---|---|
| `Catalog.NewAccommodation` | models.py:38-41 | a row created with the column defaults has occupancy 0, is active and has no amenities recorded |
| `Catalog.NewAccommodationFull` | models.py:65-66 | a new listing is full exactly when its capacity is not positive |
| `Catalog.AvailableSpots` | models.py:57-58 | spots left plus occupancy equals capacity |
| `Catalog.IsFull` | models.py:65-66 | a listing is full exactly when no spots are left (occupancy has reached capacity) |
| `Catalog.GetAmenitiesList` | models.py:49-52 | an unset or empty column reads as the empty list; otherwise the decoded column, None where decoding fails |
| `Catalog.SetAmenitiesList` | models.py:54-55 | after storing a list, reading the amenities gives that list back, and no other column changes |
| `Amenities.DecodeEncode` | models.py:49-55 | decoding the stored text of a list gives the list |
| `Amenities.EncodeInjective` | models.py:54-55 | two different lists are never stored as the same text |
| `Catalog.AverageRating` | models.py:60-63 | 0 with no reviews; otherwise the mean, i.e. average times count equals the sum |
| `Catalog.AverageRatingInRange` | models.py:60-63 | ratings between 1 and 5 average between 1 and 5 |
| `Reviews.ListingRows` | models.py:60-62 | the positions returned are those of the listing's review rows, every one of them, each once, in table order |
| `Reviews.RatingsOf` | models.py:60-62 | the i-th rating is that of the listing's i-th review row, so the list holds exactly the listing's ratings with their multiplicities; it counts the listing's rows and is empty exactly when none belongs to it |
| `Reviews.RatingsOfMembers` | models.py:60-62 | every rating is that of a row of the listing, and every such row's rating is among them |
| `Reviews.ListingAverageInRange` | models.py:60-63 | a listing with at least one review, all rated 1 to 5, shows an average between 1 and 5 |
| `Catalog.RecordPayment` | app.py:384-387 | one more place is taken; the listing stays active exactly when it was active and is not now full; no other column changes |
| `Catalog.RecordPaymentWithinCapacity` | app.py:385-387 | recording a payment on a listing that is not full keeps occupancy within capacity |
| `Catalog.RecordPaymentOnFull` | app.py:385-387 | recording a payment on a full listing pushes occupancy past capacity, since nothing refuses it |
| `Bookings.MonthsFor` | app.py:306-310 | ten months exactly for the duration `annual`, five for any other value or none |
| `Bookings.NewBooking` | app.py:319-326 | the stored booking starts approved, with no checkout session, carrying the given user, listing, duration, months and total |
| `Bookings.Cancel` | app.py:403-406 | cancelling is an allowed move that never leaves a booking approved, and a booking is paid afterwards exactly when it was paid before |
| `Bookings.MarkPaid` | app.py:379-382 | the success callback leaves the booking paid, whatever its status was, and changes nothing else |
| `Bookings.MarkPaidLeavesLifecycle` | app.py:379-382 | marking a cancelled booking paid is not an allowed lifecycle move |
| `Bookings.MarkPaidOnce` | app.py:379-382 | the guarded callback is an allowed move that never leaves a booking approved, and a booking is cancelled afterwards exactly when it was cancelled before |
| `Bookings.MarkPaidOnceIdempotent` | app.py:379-382 | applying the guarded callback twice is the same as once |
| `Reviews.PaidUnlocksReview` | app.py:214-230 | once one of a user's bookings is marked paid, the review form is offered to that user for that listing unless they already reviewed it |
| `Reviews.InsertKeepsUnique` | models.py:87 | adding a review for a pair without one keeps reviews unique per (user, accommodation) |
| `Reviews.ReviewClosesOffer` | app.py:429-436 | once a pair has a review, the form is no longer offered for it |
| `Reviews.AtMostOneReview` | models.py:87 | under the unique constraint a pair has at most one review row |
| `Favorites.Toggle` | app.py:249-267 | the pair is removed and `Removed` reported if it was present, added and `Added` reported if not; every other pair keeps its membership |
| `Favorites.ToggleTwice` | app.py:249-267 | toggling twice restores the original set, and the two reports differ |
| `Accounts.CheckAdminChange` | app.py:639-647 | the change goes through exactly when the requester is an admin, the target exists and the target is not the requester; access is denied exactly when the requester is not an admin; the target is missing exactly when an admin names an unknown user; the own-status refusal happens exactly when an admin names themselves |
| `Accounts.SetAdmin` | app.py:643-650 | the requester's own flag never changes; when the guard passes only the target's flag is set, otherwise the users are unchanged |
| `Uploads.LastDot` | app.py:77 | gives the position of a dot with no dot after it, or None exactly when the name has no dot |
| `Uploads.AllowedFile` | app.py:76-77 | a name is accepted exactly when it has a dot and the lower-cased text after its last dot is png, jpg, jpeg or gif |
| `Uploads.NoDotRefused` | app.py:77 | a name without a dot is refused |
| `Uploads.LastExtensionDecides` | app.py:77 | `stem.ext` is accepted exactly when `ext` lower-cased is an accepted extension, whatever dots the stem holds |
| `ViewHelpers.AmenityIcon` | app.py:63-74 | a known tag gets its own icon; the default icon is shown exactly for unknown tags |
| `ViewHelpers.FormTagsHaveIcons` | app.py:502-509 | every tag the admin form records has a dedicated icon |
| `ViewHelpers.StarCount` | app.py:55-57 | the filled stars of a non-negative rating are its whole part; none below 1 |
| `ViewHelpers.EmptyStarCount` | app.py:59-61 | no empty stars from 5 up, at most five for a non-negative rating |
| `ViewHelpers.FiveStarsInAll` | app.py:55-61 | a rating between 0 and 5 shows five stars in all |
| `StoreModel.Store.Detail` | app.py:197-239 | a missing or withdrawn listing gives no page; otherwise the form is offered exactly to a signed-in viewer who may review, and the favourite mark shows the viewer's saved pair |
| `StoreModel.Store.Book` | app.py:296-368 | refuses a missing listing, a full one, a total under 50 cents and a missing duration, each with the tables unchanged; otherwise stores an approved booking with months and total, and either records the provider's session id on it under a fresh id or, when the provider fails, leaves the bookings as before |
| `StoreModel.Store.PaymentSuccess` | app.py:370-398 | changes state only for a given session id the provider reports paid and some booking carries: that booking becomes paid and its listing takes exactly one more place, deactivated once full; the prior status is not consulted; every other row is unchanged |
| `StoreModel.Store.PaymentSuccessOnce` | app.py:370-398 | as the success handler, but only an approved booking is confirmed; a paid or cancelled one is reported settled and nothing changes, so every booking's status makes only allowed moves |
| `StoreModel.Store.PaymentCancel` | app.py:400-413 | an unknown booking id is an error with nothing changed; otherwise the booking is replaced by its cancelled form and nothing else changes |
| `StoreModel.Store.SubmitReview` | app.py:415-455 | refused without a paid booking or with an existing review; the review is appended exactly when the form was offered and validates; reviews stay unique per pair |
| `StoreModel.Store.ToggleFavorite` | app.py:245-270 | the favourites and the report are those of `Favorites.Toggle`; no other table changes |
| `StoreModel.Store.PromoteUser` | app.py:636-658 | the result is the guard's verdict and the users become `SetAdmin` with the flag set; no other table changes |
| `StoreModel.Store.DemoteUser` | app.py:660-682 | the result is the guard's verdict and the users become `SetAdmin` with the flag cleared; no other table changes |

## Findings

| source | as written | input that shows it | evidently intended | confidence | as-written member | corrected member |
|---|---|---|---|---|---|---|
| app.py:379-389 | the success handler marks the booking paid and adds one to occupancy on every call with a paid session | loading the success page twice with the same `session_id`: a room for one ends with occupancy 2 (`Scenarios.ReplayedConfirmationOvercounts`) | a payment is counted once; a repeat call for an already paid booking changes nothing (`Scenarios.ReplayedConfirmationCountedOnce`) | high, not executed | `StoreModel.Store.PaymentSuccess` | `StoreModel.Store.PaymentSuccessOnce` |
| app.py:379-382 | no prior-status check, so a cancelled booking can become paid | cancel the checkout, then complete payment of the same session: status goes cancelled to paid and the room is counted (`Scenarios.CancelledBookingLaterPaid`, `Bookings.MarkPaidLeavesLifecycle`) | only an approved booking moves to paid (`Scenarios.CancelledBookingStaysCancelled`, `Bookings.MarkPaidOnce`) | medium, not executed | `StoreModel.Store.PaymentSuccess` | `StoreModel.Store.PaymentSuccessOnce` |

The guard alone does not restore `occupancy <= capacity`: two approved bookings
for the last place are both confirmed by `PaymentSuccessOnce` too
(`Scenarios.TwoApprovedBookingsOverfill`). What the application should do with
a payment for a room that filled meanwhile is not evident from the code, so
that case is shown, not corrected.

## Left out

- Web plumbing: routing, templates, flash messages, redirects, JSON replies, login management. A handler's outcome is a result value instead.
- Database plumbing: queries, sessions, commits and rollbacks; each handler is one atomic update of the store. Foreign keys are not enforced (SQLite, one of the two configured back ends, does not enforce them by default), so favourites and bookings may name ids without rows. Column widths are not enforced either (SQLite ignores them), so a booking whose duration is longer than the 20 characters of `db.String(20)` (models.py:72) is stored, where the PostgreSQL back end would refuse the insert and the handler would end in its error branch.
- Rows are values in the store's maps, updated by writing the changed row back under its id; ORM object identity and aliasing are not modelled.
- Concurrency: handlers run one at a time. The unique constraints' behaviour under concurrent inserts (an integrity error, answered by `toggle_favorite` with status `error`) is not modelled; `toggle_favorite`'s error reply is not modelled either.
- The payment provider's API (Stripe calls at app.py:333-349 and app.py:378): only its outcomes are arguments. The unit amount, currency, product description and redirect URLs it is sent are not modelled.
- StoreModel.Store.PaymentSuccess: when several bookings carry the same session id, the model confirms any one of them (the query takes the first row in no stated order); the contract says which one only through the returned id.
- Floating-point money: prices are whole cents, so totals such as 0.495 cannot arise and `int(total_price * 100)` truncation is not modelled.
- Catalog.AverageRating: computed in exact reals; float rounding of the division is not modelled.
- Amenities: the column text is a JSON-style array of string literals escaping only `"` and `\`; JSON's other escapes, other JSON values and the exact output of `json.dumps` are not modelled. The model relies only on the round trip.
- Uploads.AllowedFile: lower-casing covers ASCII letters only, not Python's full Unicode `lower()`.
- Password hashing (`set_password`, `check_password`): a foreign library.
- File uploads, image saving and deletion, directory creation, logging, configuration and database seeding: I/O with no statable logic.
- The search filter of the listings page (`ilike`), the random featured listings, the admin dashboard statistics and the listing, user and booking screens: aggregate queries over the ORM.
- Admin creation, editing and deletion of listings: direct create/update/delete of rows; only the amenities helpers they call are modelled.
- The review form's own validation (the rating's range, the comment) lives in a forms module that is not part of this model; its verdict is an argument of `SubmitReview`.
