/** An optional value: a nullable column, a missing request field or a failed lookup. */
module Options {

  datatype Option<T> = None | Some(value: T)
}
