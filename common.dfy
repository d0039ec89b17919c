/** Values shared by every table of the store. */
module Common {
  /** Primary keys of all tables (the database's integer ids). */
  type Id = nat

  /** A nullable column or an absent request argument. */
  datatype Option<+T> = None | Some(value: T)
}
