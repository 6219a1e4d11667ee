/** The optional-value type shared by the controller (an omitted start value)
    and the measurement parser (a line that yields no triple). */
module Options {

  datatype Option<+T> = None | Some(value: T)
}
