/** The optional value used where the program has either something or nothing
    (an upload that may be missing, an argmax that may raise). */
module Wrappers {
  datatype Option<+T> = None | Some(value: T)
}
