/** An optional value. `None` stands for JavaScript's `undefined`, which is what
    an array read outside the array's bounds produces. */
module Wrappers {

  datatype Option<+T> = None | Some(value: T)
}
