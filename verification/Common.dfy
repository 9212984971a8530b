/** Shared vocabulary: optional values and the clock and identifier types. */
module Common {

  datatype Option<+T> = None | Some(value: T)

  /** Milliseconds; only the order of instants and their differences matter. */
  type Time = int

  /** Opaque identifiers. Uuids are compared by the database as 128-bit numbers. */
  type Uuid = nat
}
