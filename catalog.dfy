/**
 * The Accommodation table (models.py): a listing's price, its capacity,
 * how many places are taken, its amenity tags and whether it is shown.
 * Prices are whole cents.
 */
module Catalog {
  import opened Common
  import Amenities

  /** One accommodation row, reduced to the columns the booking logic reads or writes. */
  datatype Accommodation = Accommodation(
    priceCents: int,           // price per month
    capacity: int,
    occupancy: int,            // places taken by paid bookings
    amenities: Option<string>, // encoded tag list; None while unset
    isActive: bool)            // listed for booking

  /** A row created with the column defaults: nothing taken, listed, no amenities recorded. */
  function NewAccommodation(priceCents: int, capacity: int): (a: Accommodation)
    ensures a.occupancy == 0 && a.isActive && a.amenities == None
    ensures a.priceCents == priceCents && a.capacity == capacity
  {
    Accommodation(priceCents, capacity, 0, None, true)
  }

  /** Places still free; negative once the listing is over-occupied. */
  function AvailableSpots(a: Accommodation): (spots: int)
    ensures a.occupancy + spots == a.capacity
  {
    a.capacity - a.occupancy
  }

  /** A listing is full once its occupancy has reached its capacity. */
  function IsFull(a: Accommodation): (full: bool)
    ensures full <==> AvailableSpots(a) <= 0
  {
    a.occupancy >= a.capacity
  }

  /** A fresh listing is full exactly when it was given no capacity at all. */
  lemma NewAccommodationFull(priceCents: int, capacity: int)
    ensures IsFull(NewAccommodation(priceCents, capacity)) <==> capacity <= 0
  {
  }

  /**
   * The tag list of a listing: empty while the column is unset or empty,
   * otherwise the decoded column, or None where decoding would raise.
   */
  function GetAmenitiesList(a: Accommodation): (tags: Option<seq<string>>)
    ensures (a.amenities == None || a.amenities == Some("")) ==> tags == Some([])
    ensures a.amenities.Some? && a.amenities.value != "" ==> tags == Amenities.Decode(a.amenities.value)
  {
    if a.amenities == None || a.amenities == Some("") then Some([])
    else Amenities.Decode(a.amenities.value)
  }

  /** The row after its tag list has been replaced; the list reads back as given and no other column moves. */
  function SetAmenitiesList(a: Accommodation, tags: seq<string>): (r: Accommodation)
    ensures GetAmenitiesList(r) == Some(tags)
    ensures r.(amenities := a.amenities) == a
  {
    Amenities.DecodeEncode(tags);
    a.(amenities := Some(Amenities.Encode(tags)))
  }

  /** The row after one more booking has been paid for: one more place taken, and the listing withdrawn once that fills it. */
  function RecordPayment(a: Accommodation): (r: Accommodation)
    ensures r.occupancy == a.occupancy + 1
    ensures r.isActive <==> a.isActive && !IsFull(r)
    ensures r.(occupancy := a.occupancy, isActive := a.isActive) == a
  {
    var taken := a.(occupancy := a.occupancy + 1);
    if taken.occupancy >= taken.capacity then taken.(isActive := false) else taken
  }

  /** Recording a payment on a listing with a free place never over-fills it. */
  lemma RecordPaymentWithinCapacity(a: Accommodation)
    requires !IsFull(a)
    ensures RecordPayment(a).occupancy <= a.capacity
  {
  }

  /** Recording a payment on a listing that is already full pushes it past its capacity: nothing here refuses it. */
  lemma RecordPaymentOnFull(a: Accommodation)
    requires IsFull(a)
    ensures RecordPayment(a).occupancy > a.capacity && !RecordPayment(a).isActive
  {
  }

  /** The sum of a list of ratings. */
  function Sum(ratings: seq<int>): int {
    if ratings == [] then 0 else Sum(ratings[..|ratings| - 1]) + ratings[|ratings| - 1]
  }

  /** The mean of the ratings of a listing's reviews, 0 when it has none. */
  function AverageRating(ratings: seq<int>): (avg: real)
    ensures |ratings| == 0 ==> avg == 0.0
    ensures |ratings| > 0 ==> avg * |ratings| as real == Sum(ratings) as real
  {
    if |ratings| == 0 then 0.0 else Sum(ratings) as real / |ratings| as real
  }

  lemma {:induction false} SumBounds(ratings: seq<int>, lo: int, hi: int)
    requires forall i :: 0 <= i < |ratings| ==> lo <= ratings[i] <= hi
    ensures lo * |ratings| <= Sum(ratings) <= hi * |ratings|
  {
    if ratings != [] {
      var init := ratings[..|ratings| - 1];
      assert forall i :: 0 <= i < |init| ==> init[i] == ratings[i];
      SumBounds(init, lo, hi);
      assert lo * |ratings| == lo * |init| + lo;
      assert hi * |ratings| == hi * |init| + hi;
    }
  }

  /** A quotient lies between two bounds when the dividend lies between their multiples by the positive divisor. */
  lemma QuotientBounds(total: real, n: real, lo: real, hi: real)
    requires n > 0.0 && lo * n <= total <= hi * n
    ensures lo <= total / n <= hi
  {
    var q := total / n;
    assert q * n == total;
    assert (q - lo) * n == total - lo * n;
    assert (hi - q) * n == hi * n - total;
  }

  /** Ratings between 1 and 5 average between 1 and 5. */
  lemma AverageRatingInRange(ratings: seq<int>)
    requires |ratings| > 0
    requires forall i :: 0 <= i < |ratings| ==> 1 <= ratings[i] <= 5
    ensures 1.0 <= AverageRating(ratings) <= 5.0
  {
    SumBounds(ratings, 1, 5);
    var n := |ratings| as real;
    var total := Sum(ratings) as real;
    assert AverageRating(ratings) == total / n;
    assert 1.0 * n <= total <= 5.0 * n by {
      assert |ratings| <= Sum(ratings) <= 5 * |ratings|;
      assert (5 * |ratings|) as real == 5.0 * n;
    }
    QuotientBounds(total, n, 1.0, 5.0);
  }
}
