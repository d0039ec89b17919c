/** The Favorite table (models.py): a set of (user, accommodation) pairs, one row per pair. */
module Favorites {
  import opened Common

  type Pair = (Id, Id)

  /** What the toggle handler reports. */
  datatype ToggleStatus = Added | Removed

  /** The favourites after toggling a pair: removed and reported `Removed` if it was there, added and reported `Added` if not; no other pair moves. */
  function Toggle(favorites: set<Pair>, p: Pair): (r: (set<Pair>, ToggleStatus))
    ensures r.1 == Removed <==> p in favorites
    ensures p in r.0 <==> p !in favorites
    ensures forall q :: q != p ==> (q in r.0 <==> q in favorites)
  {
    if p in favorites then (favorites - {p}, Removed) else (favorites + {p}, Added)
  }

  /** Toggling the same pair twice restores the original set, and the two reports differ. */
  lemma ToggleTwice(favorites: set<Pair>, p: Pair)
    ensures Toggle(Toggle(favorites, p).0, p).0 == favorites
    ensures Toggle(Toggle(favorites, p).0, p).1 != Toggle(favorites, p).1
  {
  }
}
