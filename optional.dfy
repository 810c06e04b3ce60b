/** The result of a lookup that may find nothing (`undefined` in the dashboard's code). */
module Optional {
  datatype Option<+T> = None | Some(value: T)
}
