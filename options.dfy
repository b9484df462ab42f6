/** The usual Some/None wrapper, used where the source passes a nullable reference
    and for the results of the parsers that invert the formatting functions. */
module Options {
  datatype Option<+T> = None | Some(value: T)
}
