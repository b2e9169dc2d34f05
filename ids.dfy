/** Database identifiers, shared by both services' stores. */
module Ids {
  /** An `_id`, drawn from a counter the store keeps. */
  type ObjectId = nat
}
