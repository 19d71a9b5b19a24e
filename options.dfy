/** The optional value used throughout the relay model: an absent request field, a failed
    extraction, a `NaN` number. */
module Options {

  datatype Option<+T> = None | Some(value: T)
}
