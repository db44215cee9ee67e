/** The optional value used where the source returns `std::optional` or a
    sentinel for "nothing found". */
module Wrappers {

  datatype Option<+T> = None | Some(value: T)

}
