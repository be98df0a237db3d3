/** The `null`-or-value cells of the components (a reaction that may be unset, a table lookup that may miss). */
module Optional {
  datatype Option<T> = None | Some(value: T)
}
