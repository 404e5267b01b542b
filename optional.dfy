/** The explicit "no data" marker. Where the engine writes NaN into a
    displacement cell, the model stores None. */
module Optional {

  datatype Option<+T> = None | Some(value: T)
}
