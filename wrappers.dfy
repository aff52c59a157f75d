/** Optional values, used for nullable columns, lookups that may find nothing
    and `undefined` results. */
module Wrappers {

  datatype Option<+T> = None | Some(value: T)

  /** A key of a JavaScript object literal: absent, or present with a value.
      Used for the partial-update records the handlers hand to the store. */
  datatype Field<+T> = Absent | Set(value: T)
}
