/** The JavaScript `null`-or-value convention, as a datatype. */
module Optional {

  datatype Option<+T> = None | Some(value: T)
}
