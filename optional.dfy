/** The absent-or-present value used for every step of the program that
    fails and is handled by returning early: a date that does not parse,
    an empty plot selection. */
module Optional {
  datatype Option<T> = None | Some(value: T)
}
