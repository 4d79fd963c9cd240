/** An optional value, for absent documents, signed-out sessions and
    strings that do not parse. */
module Options {

  datatype Option<+T> = None | Some(value: T)
}
