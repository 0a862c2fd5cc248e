/** An optional value, used for parse results, the effects' remembered
    dependencies and the outcome of a download. */
module Opt {
  datatype Option<+T> = None | Some(value: T)
}
