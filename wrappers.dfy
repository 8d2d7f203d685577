/** The absent-or-present result used for the segment's soft failures (a thrown
    exception or a null return in BasisExponentialTension.java). */
module Wrappers {

  datatype Option<+T> = None | Some(value: T)

}
