/** The optional value used wherever the renderer has "no value": a point
    without color, a key without a handler, a projection without a finite
    result. */
module Wrappers {

  datatype Option<+T> = None | Some(value: T)
}
