/** How one remote call to Postgres or Redis can end. */
module Calls {
  // Refused: an error and no effect. Lost: the effect happened but the caller sees an error.
  datatype Io = Done | Refused | Lost {
    predicate Effective() { !Refused? }
  }
}
