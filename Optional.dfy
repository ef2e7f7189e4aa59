/** The absent-or-present value used for the source's `undefined`-able fields and for
    callbacks that may or may not fire. */
module Optional {

  datatype Option<+T> = None | Some(value: T)

}
