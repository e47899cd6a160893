/** An optional value, for results that may be absent (a file that could not be opened,
    an accessor that a glTF primitive does not carry). */
module Optional {
  datatype Option<+T> = None | Some(value: T)
}
