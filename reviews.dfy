/**
 * The Review table (models.py) and the review gate of the accommodation
 * page and of the review handler (app.py): a user may review a listing
 * after paying for it, once.
 */
module Reviews {
  import opened Common
  import opened Bookings
  import Catalog

  /** One review row. */
  datatype Review = Review(user: Id, accommodation: Id, rating: int, comment: string)

  /** Whether the user has already reviewed the accommodation. */
  predicate HasReview(reviews: seq<Review>, user: Id, accommodation: Id) {
    exists i :: 0 <= i < |reviews| && reviews[i].user == user && reviews[i].accommodation == accommodation
  }

  /** The table's unique constraint: no two rows for the same (user, accommodation) pair. */
  predicate UniquePerPair(reviews: seq<Review>) {
    forall i, j :: 0 <= i < j < |reviews| ==>
      reviews[i].user != reviews[j].user || reviews[i].accommodation != reviews[j].accommodation
  }

  /** The accommodation page offers the review form exactly when the viewer has paid and has not yet reviewed. */
  predicate CanReview(bookings: map<Id, Booking>, reviews: seq<Review>, user: Id, accommodation: Id) {
    HasPaidBooking(bookings, user, accommodation) && !HasReview(reviews, user, accommodation)
  }

  /** Marking one booking paid opens the review form to its user for its listing, unless they already reviewed it. */
  lemma PaidUnlocksReview(bookings: map<Id, Booking>, reviews: seq<Review>, id: Id)
    requires id in bookings
    requires !HasReview(reviews, bookings[id].user, bookings[id].accommodation)
    ensures CanReview(bookings[id := MarkPaid(bookings[id])], reviews, bookings[id].user, bookings[id].accommodation)
  {
    var after := bookings[id := MarkPaid(bookings[id])];
    assert after[id].status == Paid && after[id].user == bookings[id].user
      && after[id].accommodation == bookings[id].accommodation;
  }

  /** Adding a review for a pair that has none keeps the unique constraint. */
  lemma InsertKeepsUnique(reviews: seq<Review>, r: Review)
    requires UniquePerPair(reviews)
    requires !HasReview(reviews, r.user, r.accommodation)
    ensures UniquePerPair(reviews + [r])
  {
    var all := reviews + [r];
    forall i, j | 0 <= i < j < |all|
      ensures all[i].user != all[j].user || all[i].accommodation != all[j].accommodation
    {
      if j == |reviews| {
        assert all[i] == reviews[i];
      }
    }
  }

  /** Once a review for the pair exists, the form is no longer offered for it. */
  lemma ReviewClosesOffer(bookings: map<Id, Booking>, reviews: seq<Review>, r: Review)
    ensures !CanReview(bookings, reviews + [r], r.user, r.accommodation)
  {
    assert (reviews + [r])[|reviews|] == r;
  }

  /** How many rows the table holds for the pair. */
  function ReviewCount(reviews: seq<Review>, user: Id, accommodation: Id): nat {
    if reviews == [] then 0
    else
      var last := reviews[|reviews| - 1];
      ReviewCount(reviews[..|reviews| - 1], user, accommodation)
        + (if last.user == user && last.accommodation == accommodation then 1 else 0)
  }

  lemma {:induction false} ReviewCountZero(reviews: seq<Review>, user: Id, accommodation: Id)
    requires !HasReview(reviews, user, accommodation)
    ensures ReviewCount(reviews, user, accommodation) == 0
  {
    if reviews != [] {
      var init := reviews[..|reviews| - 1];
      assert !HasReview(init, user, accommodation) by {
        forall i | 0 <= i < |init| ensures init[i] == reviews[i] { }
      }
      ReviewCountZero(init, user, accommodation);
      assert reviews[|reviews| - 1].user != user || reviews[|reviews| - 1].accommodation != accommodation;
    }
  }

  /** Under the unique constraint a pair has at most one review. */
  lemma {:induction false} AtMostOneReview(reviews: seq<Review>, user: Id, accommodation: Id)
    requires UniquePerPair(reviews)
    ensures ReviewCount(reviews, user, accommodation) <= 1
  {
    if reviews != [] {
      var n := |reviews| - 1;
      var init := reviews[..n];
      assert UniquePerPair(init) by {
        forall i | 0 <= i < |init| ensures init[i] == reviews[i] { }
      }
      AtMostOneReview(init, user, accommodation);
      if reviews[n].user == user && reviews[n].accommodation == accommodation {
        assert !HasReview(init, user, accommodation) by {
          forall i | 0 <= i < |init|
            ensures init[i].user != user || init[i].accommodation != accommodation
          {
            assert init[i] == reviews[i];
          }
        }
        ReviewCountZero(init, user, accommodation);
      }
    }
  }

  /** The number of reviews of one accommodation. */
  function ListingCount(reviews: seq<Review>, accommodation: Id): nat {
    if reviews == [] then 0
    else
      ListingCount(reviews[..|reviews| - 1], accommodation)
        + (if reviews[|reviews| - 1].accommodation == accommodation then 1 else 0)
  }

  /** The positions of the review rows of one accommodation, in table order. */
  function ListingRows(reviews: seq<Review>, accommodation: Id): (rows: seq<nat>)
    ensures forall i :: 0 <= i < |rows| ==> rows[i] < |reviews| && reviews[rows[i]].accommodation == accommodation
    ensures forall i, k :: 0 <= i < k < |rows| ==> rows[i] < rows[k]
    ensures forall j :: 0 <= j < |reviews| && reviews[j].accommodation == accommodation ==> j in rows
  {
    if reviews == [] then []
    else
      var init := reviews[..|reviews| - 1];
      assert forall j :: 0 <= j < |init| ==> init[j] == reviews[j];
      ListingRows(init, accommodation)
        + (if reviews[|reviews| - 1].accommodation == accommodation then [|reviews| - 1] else [])
  }

  /** The number of rows of a listing is the number of its positions. */
  lemma {:induction false} ListingCountRows(reviews: seq<Review>, accommodation: Id)
    ensures ListingCount(reviews, accommodation) == |ListingRows(reviews, accommodation)| <= |reviews|
  {
    if reviews != [] {
      ListingCountRows(reviews[..|reviews| - 1], accommodation);
    }
  }

  /** A list taken row by row from a listing's positions counts its rows, and is empty exactly when it has none. */
  lemma RatingsFromRows(reviews: seq<Review>, accommodation: Id, ratings: seq<int>)
    requires |ratings| == |ListingRows(reviews, accommodation)|
    ensures |ratings| == ListingCount(reviews, accommodation) <= |reviews|
    ensures ratings == [] <==> forall i :: 0 <= i < |reviews| ==> reviews[i].accommodation != accommodation
  {
    ListingCountRows(reviews, accommodation);
  }

  /**
   * The ratings of the reviews of one accommodation, oldest first: the i-th
   * is the rating of the i-th row of that listing (`ListingRows`), so there is
   * exactly one per row and they come in table order.
   */
  function RatingsOf(reviews: seq<Review>, accommodation: Id): (ratings: seq<int>)
    ensures |ratings| == |ListingRows(reviews, accommodation)|
    ensures forall i :: 0 <= i < |ratings| ==> ratings[i] == reviews[ListingRows(reviews, accommodation)[i]].rating
    ensures |ratings| == ListingCount(reviews, accommodation) <= |reviews|
    ensures ratings == [] <==> forall i :: 0 <= i < |reviews| ==> reviews[i].accommodation != accommodation
  {
    if reviews == [] then []
    else
      var init := reviews[..|reviews| - 1];
      var last := reviews[|reviews| - 1];
      assert forall j :: 0 <= j < |init| ==> init[j] == reviews[j];
      var r := RatingsOf(init, accommodation) + (if last.accommodation == accommodation then [last.rating] else []);
      RatingsFromRows(reviews, accommodation, r);
      r
  }

  /** Every rating of a listing is that of one of its rows, and every row's rating is among them. */
  lemma RatingsOfMembers(reviews: seq<Review>, accommodation: Id)
    ensures forall i :: 0 <= i < |RatingsOf(reviews, accommodation)| ==>
      exists j :: 0 <= j < |reviews| && reviews[j].accommodation == accommodation
        && reviews[j].rating == RatingsOf(reviews, accommodation)[i]
    ensures forall j :: 0 <= j < |reviews| && reviews[j].accommodation == accommodation ==>
      reviews[j].rating in RatingsOf(reviews, accommodation)
  {
    var rows := ListingRows(reviews, accommodation);
    var ratings := RatingsOf(reviews, accommodation);
    forall i | 0 <= i < |ratings|
      ensures exists j :: 0 <= j < |reviews| && reviews[j].accommodation == accommodation && reviews[j].rating == ratings[i]
    {
      var j := rows[i];
      assert reviews[j].rating == ratings[i];
    }
    forall j | 0 <= j < |reviews| && reviews[j].accommodation == accommodation
      ensures reviews[j].rating in ratings
    {
      var i :| 0 <= i < |rows| && rows[i] == j;
      assert ratings[i] == reviews[j].rating;
    }
  }

  /** The average shown on a listing lies within the star range once it has a review and all its ratings are 1 to 5. */
  lemma ListingAverageInRange(reviews: seq<Review>, accommodation: Id)
    requires exists j :: 0 <= j < |reviews| && reviews[j].accommodation == accommodation
    requires forall j :: 0 <= j < |reviews| && reviews[j].accommodation == accommodation ==> 1 <= reviews[j].rating <= 5
    ensures 1.0 <= Catalog.AverageRating(RatingsOf(reviews, accommodation)) <= 5.0
  {
    var rows := ListingRows(reviews, accommodation);
    var ratings := RatingsOf(reviews, accommodation);
    var j :| 0 <= j < |reviews| && reviews[j].accommodation == accommodation;
    assert j in rows;
    forall i | 0 <= i < |ratings|
      ensures 1 <= ratings[i] <= 5
    {
      assert ratings[i] == reviews[rows[i]].rating;
    }
    Catalog.AverageRatingInRange(ratings);
  }
}
