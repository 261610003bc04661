/** Small optional-value wrapper shared by the other modules. */
module Wrappers {

  /** `None` stands for JavaScript's `null` (a store lookup that found nothing)
      or `undefined` (a request field that is absent). */
  datatype Option<+T> = None | Some(value: T)
}
