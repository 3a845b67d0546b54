/** Nullable references of the game's scripts are modelled as `Option` values. */
module Wrappers {
  datatype Option<+T> = None | Some(value: T)
}
