/** The nullable references of the components (a brush texture that may be unset)
    are modelled as options. */
module Wrappers {

  datatype Option<+T> = None | Some(value: T)
}
