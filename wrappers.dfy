/** The optional value used wherever the source may have "nothing" (an absent
    image URL, a parse that throws). */
module Wrappers {

  datatype Option<+T> = None | Some(value: T)
}
