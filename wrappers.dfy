/** The optional value returned by the menu lookup (Java's Optional). */
module Wrappers {
  datatype Option<T> = None | Some(value: T)
}
