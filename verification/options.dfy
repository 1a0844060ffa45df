/** The optional value used for nullable columns and nullable results. */
module Options {

  datatype Option<+T> = None | Some(value: T)
}
