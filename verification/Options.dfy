/** The usual optional value, standing for Go's nil pointers, nil maps and missing entries. */
module Options {

  datatype Option<+T> = None | Some(value: T)
}
