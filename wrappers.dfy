/** The optional value used for JavaScript's `undefined`: a missing
    navigation parameter, the miss of an `Array.prototype.find`, or a
    regular-expression match that did not happen. */
module Wrappers {

  datatype Option<+T> = None | Some(value: T)
}
