/** A value that may be absent: the model of a nullable pointer or an
    unset callback. */
module Optional {

  datatype Option<+T> = None | Some(value: T)
}
