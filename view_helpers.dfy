/** The pure helpers the page templates call (app.py): amenity icons and star counts. */
module ViewHelpers {
  import Amenities

  /** The icon of each known amenity tag. */
  const Icons: map<string, string> := map[
    "wifi" := "bi-wifi",
    "parking" := "bi-car-front",
    "laundry" := "bi-water",
    "gym" := "bi-bicycle",
    "furnished" := "bi-house-door",
    "security" := "bi-shield-check",
    "pool" := "bi-droplet",
    "study_area" := "bi-book"]

  /** The icon shown for a tag the table does not know. */
  const DefaultIcon: string := "bi-check"

  /** A known tag gets its own icon, every other tag the default one, and no known tag shares the default. */
  function AmenityIcon(amenity: string): (icon: string)
    ensures amenity in Icons ==> icon == Icons[amenity]
    ensures icon == DefaultIcon <==> amenity !in Icons
  {
    if amenity in Icons then Icons[amenity] else DefaultIcon
  }

  /** Every tag the admin form can record has a dedicated icon. */
  lemma FormTagsHaveIcons()
    ensures forall i :: 0 <= i < |Amenities.FormTags| ==> AmenityIcon(Amenities.FormTags[i]) != DefaultIcon
  {
  }

  /** Python's `int()` on a number: truncation toward zero. */
  function Truncate(x: real): (n: int)
    ensures x >= 0.0 ==> n as real <= x < n as real + 1.0
    ensures x < 0.0 ==> n as real - 1.0 < x <= n as real
  {
    if x >= 0.0 then x.Floor else -((-x).Floor)
  }

  /** How many filled stars a rating shows: its truncation, none for a negative count. */
  function StarCount(rating: real): (n: nat)
    ensures rating >= 0.0 ==> n as real <= rating < n as real + 1.0
    ensures rating < 1.0 ==> n == 0
  {
    var t := Truncate(rating);
    if t < 0 then 0 else t
  }

  /** How many empty stars a rating shows next to the filled ones. */
  function EmptyStarCount(rating: real): (n: nat)
    ensures rating >= 5.0 ==> n == 0
    ensures rating >= 0.0 ==> n <= 5
  {
    var t := 5 - Truncate(rating);
    if t < 0 then 0 else t
  }

  /** A rating between 0 and 5 always shows five stars in all. */
  lemma FiveStarsInAll(rating: real)
    requires 0.0 <= rating <= 5.0
    ensures StarCount(rating) + EmptyStarCount(rating) == 5
  {
  }
}
