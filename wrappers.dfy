/** An optional value: the text factor of the scoring engine is either present or absent. */
module Wrappers {

  datatype Option<+T> = None | Some(value: T)

}
