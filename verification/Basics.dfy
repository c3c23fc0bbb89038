/** What several modules share. */
module Basics {

  datatype Option<+T> = None | Some(value: T)

  // Instants and durations, in nanoseconds.
  type Time = int
}
